/** The back end's entity resolver (backend/entity_resolution.py): fuzzy name
    similarity, weighted multi-identifier scoring of every profile, ranking of
    the candidates, and the overall confidence of an entity's cross-source
    links. The profile table and the linked-record lookups are parameters;
    `difflib.SequenceMatcher.ratio` is an uninterpreted function into [0, 1]. */
module EntityResolution {
  import opened Common
  import Ranking

  // ---------------------------------------------------------------------
  // Python string normalisation: `str.isspace`, `strip`, `split`
  // ---------------------------------------------------------------------

  /** The characters Python's `str.isspace` accepts. */
  predicate IsPySpace(c: char)
  {
    ('\t' <= c <= '\r') || ('\U{1C}' <= c <= ' ') || c == '\U{85}' || c == '\U{A0}'
    || c == '\U{1680}' || ('\U{2000}' <= c <= '\U{200A}') || c == '\U{2028}' || c == '\U{2029}'
    || c == '\U{202F}' || c == '\U{205F}' || c == '\U{3000}'
  }

  function TrimStart(s: string): (r: string)
    ensures |r| <= |s| && r == s[|s| - |r|..]
    ensures r != [] ==> !IsPySpace(r[0])
    ensures forall i :: 0 <= i < |s| - |r| ==> IsPySpace(s[i])
  {
    if s == [] || !IsPySpace(s[0]) then s else TrimStart(s[1..])
  }

  function TrimEnd(s: string): (r: string)
    ensures |r| <= |s| && r == s[..|r|]
    ensures r != [] ==> !IsPySpace(r[|r| - 1])
    ensures forall i :: |r| <= i < |s| ==> IsPySpace(s[i])
  {
    if s == [] || !IsPySpace(s[|s| - 1]) then s else TrimEnd(s[..|s| - 1])
  }

  /** `s.strip()`: the slice of `s` left after dropping whitespace at both ends. */
  function Strip(s: string): (r: string)
    ensures exists i, j :: 0 <= i <= j <= |s| && r == s[i..j]
    ensures r != [] ==> !IsPySpace(r[0]) && !IsPySpace(r[|r| - 1])
  {
    var t := TrimStart(s);
    var r := TrimEnd(t);
    assert r == s[|s| - |t|..|s| - |t| + |r|];
    r
  }

  /** The longest prefix of `s` holding no whitespace. */
  function WordPrefix(s: string): (w: string)
    ensures w <= s
    ensures forall i :: 0 <= i < |w| ==> !IsPySpace(w[i])
    ensures |w| < |s| ==> IsPySpace(s[|w|])
  {
    if s == [] || IsPySpace(s[0]) then [] else [s[0]] + WordPrefix(s[1..])
  }

  /** `s.split()`: the maximal runs of non-whitespace characters, in order. */
  function Words(s: string): (ws: seq<string>)
    ensures forall k :: 0 <= k < |ws| ==> ws[k] != [] && forall i :: 0 <= i < |ws[k]| ==> !IsPySpace(ws[k][i])
    decreases |s|
  {
    if s == [] then []
    else if IsPySpace(s[0]) then Words(s[1..])
    else
      var w := WordPrefix(s);
      [w] + Words(s[|w|..])
  }

  function TokenSet(s: string): set<string>
  {
    set w | w in Words(s)
  }

  /** The normalisation applied before comparing: `name.lower().strip()`. */
  function Normalize(name: string): string
  {
    Strip(Lower(name))
  }

  // ---------------------------------------------------------------------
  // Name similarity
  // ---------------------------------------------------------------------

  /** A score between 0 and 1. */
  type Ratio = r: real | 0.0 <= r <= 1.0

  /** Jaccard ratio of two token sets, 0 when either is empty. */
  function Jaccard(a: set<string>, b: set<string>): (j: real)
    ensures a == {} || b == {} ==> j == 0.0
    ensures a != {} && b != {} ==> j == (|a * b| as real) / (|a + b| as real)
  {
    if a == {} || b == {} then 0.0 else (|a * b| as real) / (|a + b| as real)
  }

  /** `calculate_name_similarity`, with `ratio` standing for
      `SequenceMatcher(None, n1, n2).ratio()` on the normalised names. */
  function NameSimilarity(name1: string, name2: string, ratio: (string, string) -> Ratio): (sim: real)
    ensures 0.0 <= sim <= 1.0
    ensures name1 == "" || name2 == "" ==> sim == 0.0
    ensures name1 != "" && name2 != "" && Normalize(name1) == Normalize(name2) ==> sim == 1.0
    ensures name1 != "" && name2 != "" && Normalize(name1) != Normalize(name2) ==>
      sim == 0.6 * ratio(Normalize(name1), Normalize(name2))
             + 0.4 * Jaccard(TokenSet(Normalize(name1)), TokenSet(Normalize(name2)))
  {
    if name1 == "" || name2 == "" then 0.0
    else
      var n1 := Normalize(name1);
      var n2 := Normalize(name2);
      if n1 == n2 then 1.0
      else
        var t1 := TokenSet(n1);
        var t2 := TokenSet(n2);
        JaccardBounds(t1, t2);
        0.6 * ratio(n1, n2) + 0.4 * Jaccard(t1, t2)
  }

  /** Token similarity lies in [0, 1]. */
  lemma JaccardBounds(a: set<string>, b: set<string>)
    ensures 0.0 <= Jaccard(a, b) <= 1.0
  {
    if a != {} && b != {} {
      SubsetCardinality(a * b, a + b);
      SubsetCardinality(a, a + b);
    }
  }

  /** Token similarity does not depend on the order of the names. */
  lemma JaccardSymmetric(a: set<string>, b: set<string>)
    ensures Jaccard(a, b) == Jaccard(b, a)
  {
    assert a * b == b * a && a + b == b + a;
  }

  /** Token similarity is 1 exactly when both names have the same non-empty token set. */
  lemma JaccardOneIffSame(a: set<string>, b: set<string>)
    requires a != {} && b != {}
    ensures Jaccard(a, b) == 1.0 <==> a == b
  {
    if a != b {
      var x;
      if !(a <= b) {
        x :| x in a && x !in b;
      } else {
        assert !(b <= a);
        x :| x in b && x !in a;
      }
      SubsetCardinality(a * b, (a + b) - {x});
      var k := |a * b| as real;
      var n := |a + b| as real;
      assert Jaccard(a, b) == k / n;
      RatioBelowOne(k, n);
    } else {
      assert a * b == a && a + b == a;
      var n := |a| as real;
      assert n > 0.0 by {
        var x :| x in a;
        SubsetCardinality({x}, a);
      }
      assert Jaccard(a, b) == n / n;
      assert n / n == 1.0;
    }
  }

  lemma RatioBelowOne(k: real, n: real)
    requires 0.0 <= k < n
    ensures k / n < 1.0
  {
    var m := k / n;
    assert m * n == k;
    assert (1.0 - m) * n == n - k;
  }

  /** Names that share no token and differ after normalisation never reach the
      0.7 threshold: their similarity is at most 0.6. */
  lemma NoSharedTokenBelowThreshold(name1: string, name2: string, ratio: (string, string) -> Ratio)
    requires name1 != "" && name2 != "" && Normalize(name1) != Normalize(name2)
    requires TokenSet(Normalize(name1)) * TokenSet(Normalize(name2)) == {}
    ensures NameSimilarity(name1, name2, ratio) <= 0.6
  {
    JaccardDisjoint(TokenSet(Normalize(name1)), TokenSet(Normalize(name2)));
  }

  lemma JaccardDisjoint(a: set<string>, b: set<string>)
    requires a * b == {}
    ensures Jaccard(a, b) == 0.0
  {
    if a != {} && b != {} {
      assert |a * b| == 0;
    }
  }

  /** A non-empty name is fully similar to itself and to any re-cased or
      re-padded copy of itself. */
  lemma SimilarToItself(name1: string, name2: string, ratio: (string, string) -> Ratio)
    requires name1 != "" && name2 != ""
    requires Normalize(name1) == Normalize(name2)
    ensures NameSimilarity(name1, name2, ratio) == 1.0
    ensures NameSimilarity(name2, name1, ratio) == 1.0
  {
  }

  // ---------------------------------------------------------------------
  // Scoring one profile
  // ---------------------------------------------------------------------

  /** The identifying fields of a profile row, each possibly absent. */
  datatype Profile = Profile(
    entityId: Option<string>,
    name: Option<string>,
    email: Option<string>,
    cardId: Option<string>,
    deviceHash: Option<string>,
    faceId: Option<string>,
    studentId: Option<string>)

  /** The identifiers a caller supplies. */
  datatype Query = Query(
    name: Option<string>,
    email: Option<string>,
    cardId: Option<string>,
    deviceHash: Option<string>,
    faceId: Option<string>,
    studentId: Option<string>)

  datatype Field = CardIdField | DeviceHashField | FaceIdField | StudentIdField | EmailField | NameFuzzy

  /** The fixed weight of an exact identifier match. */
  function Weight(f: Field): real
  {
    match f
    case CardIdField => 0.25
    case DeviceHashField => 0.20
    case FaceIdField => 0.20
    case StudentIdField => 0.15
    case EmailField => 0.15
    case NameFuzzy => 0.0
  }

  /** `value and profile.get(key) == value`. */
  predicate ExactMatch(value: Option<string>, stored: Option<string>)
  {
    Truthy(value) && stored == value
  }

  /** The exact-match fields, in the order they are checked. */
  function ExactFields(q: Query, p: Profile): seq<Field>
  {
    FieldsOf(ExactMatch(q.cardId, p.cardId), ExactMatch(q.deviceHash, p.deviceHash),
      ExactMatch(q.faceId, p.faceId), ExactMatch(q.studentId, p.studentId), ExactMatch(q.email, p.email))
  }

  /** The identifier fields whose tests passed, in checking order. */
  function FieldsOf(card: bool, device: bool, face: bool, student: bool, email: bool): seq<Field>
  {
    (if card then [CardIdField] else [])
    + (if device then [DeviceHashField] else [])
    + (if face then [FaceIdField] else [])
    + (if student then [StudentIdField] else [])
    + (if email then [EmailField] else [])
  }

  function SumWeights(fs: seq<Field>): real
  {
    if fs == [] then 0.0 else Weight(fs[0]) + SumWeights(fs[1..])
  }

  /** The name's similarity when both names are present (truthy), else none. */
  function NameSim(q: Query, p: Profile, ratio: (string, string) -> Ratio): Option<real>
  {
    if Truthy(q.name) && Truthy(p.name) then Some(NameSimilarity(q.name.value, p.name.value, ratio)) else None
  }

  /** The name counts only when its similarity reaches 0.7. */
  predicate NameCounts(q: Query, p: Profile, ratio: (string, string) -> Ratio)
  {
    var s := NameSim(q, p, ratio); s.Some? && s.value >= 0.7
  }

  /** The fields that matched, in order, with the fuzzy name last. */
  function MatchedFields(q: Query, p: Profile, ratio: (string, string) -> Ratio): seq<Field>
  {
    ExactFields(q, p) + (if NameCounts(q, p, ratio) then [NameFuzzy] else [])
  }

  /** Each identifier field is listed exactly when its test passed, and the
      fuzzy name is never among them. */
  lemma FieldsOfMembers(card: bool, device: bool, face: bool, student: bool, email: bool)
    ensures var fs := FieldsOf(card, device, face, student, email);
      && (CardIdField in fs <==> card) && (DeviceHashField in fs <==> device) && (FaceIdField in fs <==> face)
      && (StudentIdField in fs <==> student) && (EmailField in fs <==> email) && NameFuzzy !in fs
  {
  }

  /** The listed identifier weights add up to at most 0.95. */
  lemma FieldsOfWeight(card: bool, device: bool, face: bool, student: bool, email: bool)
    ensures 0.0 <= SumWeights(FieldsOf(card, device, face, student, email)) <= 0.95
  {
    var a := if card then [CardIdField] else [];
    var b := if device then [DeviceHashField] else [];
    var c := if face then [FaceIdField] else [];
    var d := if student then [StudentIdField] else [];
    var e := if email then [EmailField] else [];
    PieceWeight(card, CardIdField);
    PieceWeight(device, DeviceHashField);
    PieceWeight(face, FaceIdField);
    PieceWeight(student, StudentIdField);
    PieceWeight(email, EmailField);
    SumWeightsAppend(a, b);
    SumWeightsAppend(a + b, c);
    SumWeightsAppend(a + b + c, d);
    SumWeightsAppend(a + b + c + d, e);
  }

  lemma PieceWeight(b: bool, g: Field)
    ensures SumWeights(if b then [g] else []) == if b then Weight(g) else 0.0
  {
    if b {
      assert [g][1..] == [];
    }
  }

  /** A field is listed exactly when it matched. */
  lemma MatchedFieldsMeaning(q: Query, p: Profile, ratio: (string, string) -> Ratio)
    ensures var fs := MatchedFields(q, p, ratio);
      && (CardIdField in fs <==> ExactMatch(q.cardId, p.cardId))
      && (DeviceHashField in fs <==> ExactMatch(q.deviceHash, p.deviceHash))
      && (FaceIdField in fs <==> ExactMatch(q.faceId, p.faceId))
      && (StudentIdField in fs <==> ExactMatch(q.studentId, p.studentId))
      && (EmailField in fs <==> ExactMatch(q.email, p.email))
      && (NameFuzzy in fs <==> NameCounts(q, p, ratio))
  {
    FieldsOfMembers(ExactMatch(q.cardId, p.cardId), ExactMatch(q.deviceHash, p.deviceHash),
      ExactMatch(q.faceId, p.faceId), ExactMatch(q.studentId, p.studentId), ExactMatch(q.email, p.email));
  }

  /** `match_score`: the weights of the exact matches plus `sim * 0.20` for a
      name whose similarity reaches 0.7. */
  function MatchScore(q: Query, p: Profile, ratio: (string, string) -> Ratio): real
  {
    SumWeights(ExactFields(q, p)) + (if NameCounts(q, p, ratio) then NameSim(q, p, ratio).value * 0.20 else 0.0)
  }

  /** Bounds of the exact-match part: each matched field adds a positive weight. */
  lemma {:induction false} SumWeightsBounds(fs: seq<Field>)
    requires NameFuzzy !in fs
    ensures SumWeights(fs) >= 0.0
    ensures fs != [] ==> SumWeights(fs) > 0.0
  {
    if fs != [] {
      assert NameFuzzy !in fs[1..] by {
        assert forall f :: f in fs[1..] ==> f in fs;
      }
      SumWeightsBounds(fs[1..]);
    }
  }

  lemma ExactFieldsFacts(q: Query, p: Profile)
    ensures NameFuzzy !in ExactFields(q, p)
    ensures 0.0 <= SumWeights(ExactFields(q, p)) <= 0.95
  {
    var card, device, face := ExactMatch(q.cardId, p.cardId), ExactMatch(q.deviceHash, p.deviceHash), ExactMatch(q.faceId, p.faceId);
    var student, email := ExactMatch(q.studentId, p.studentId), ExactMatch(q.email, p.email);
    FieldsOfMembers(card, device, face, student, email);
    FieldsOfWeight(card, device, face, student, email);
  }

  lemma {:induction false} SumWeightsAppend(a: seq<Field>, b: seq<Field>)
    ensures SumWeights(a + b) == SumWeights(a) + SumWeights(b)
  {
    if a != [] {
      assert (a + b)[0] == a[0];
      assert (a + b)[1..] == a[1..] + b;
      SumWeightsAppend(a[1..], b);
      assert SumWeights(a + b) == Weight(a[0]) + SumWeights(a[1..] + b);
    } else {
      assert a + b == b;
    }
  }

  /** A profile scores above zero exactly when some field matched, and never
      above the documented maximum 1.15. */
  lemma ScoreBounds(q: Query, p: Profile, ratio: (string, string) -> Ratio)
    ensures 0.0 <= MatchScore(q, p, ratio) <= 1.15
    ensures MatchScore(q, p, ratio) > 0.0 <==> MatchedFields(q, p, ratio) != []
  {
    ExactFieldsFacts(q, p);
    SumWeightsBounds(ExactFields(q, p));
  }

  /** Matching one more identifier, other things equal, can only raise the
      score: with the same name outcome the score is the exact-match weight sum
      plus the name's share. */
  lemma CardMatchAddsQuarter(q: Query, p: Profile, ratio: (string, string) -> Ratio)
    requires ExactMatch(q.cardId, p.cardId)
    ensures MatchScore(q, p, ratio) == 0.25 + MatchScore(q.(cardId := None), p, ratio)
  {
    var rest := ExactFields(q.(cardId := None), p);
    assert ExactFields(q, p) == [CardIdField] + rest;
    assert ([CardIdField] + rest)[1..] == rest;
  }

  // ---------------------------------------------------------------------
  // Candidates and ranking
  // ---------------------------------------------------------------------

  datatype Candidate = Candidate(
    entityId: Option<string>,
    profile: Profile,
    confidence: real,
    matchedFields: seq<Field>,
    matchScore: real)

  /** The candidate a profile yields, if its score is positive. */
  function CandidateFor(q: Query, p: Profile, ratio: (string, string) -> Ratio): (c: Option<Candidate>)
    ensures c.Some? <==> MatchedFields(q, p, ratio) != []
    ensures c.Some? ==> 0.0 < c.value.confidence <= 1.0 && c.value.profile == p
    ensures c.Some? ==> c.value.confidence == c.value.matchScore / 1.15
  {
    ScoreBounds(q, p, ratio);
    var score := MatchScore(q, p, ratio);
    if score > 0.0 then
      var conf := if score / 1.15 <= 1.0 then score / 1.15 else 1.0;
      Some(Candidate(p.entityId, p, conf, MatchedFields(q, p, ratio), score))
    else None
  }

  /** The candidates of a list of profiles, in table order. */
  function Candidates(profiles: seq<Profile>, q: Query, ratio: (string, string) -> Ratio): seq<Candidate>
  {
    if profiles == [] then []
    else
      var prev := Candidates(profiles[..|profiles| - 1], q, ratio);
      var c := CandidateFor(q, profiles[|profiles| - 1], ratio);
      if c.Some? then prev + [c.value] else prev
  }

  /** The scoring loop of `resolve_entity`. */
  method CollectCandidates(profiles: seq<Profile>, q: Query, ratio: (string, string) -> Ratio)
    returns (candidates: seq<Candidate>)
    ensures candidates == Candidates(profiles, q, ratio)
  {
    candidates := [];
    var i := 0;
    while i < |profiles|
      invariant 0 <= i <= |profiles|
      invariant candidates == Candidates(profiles[..i], q, ratio)
    {
      var c := CandidateFor(q, profiles[i], ratio);
      if c.Some? {
        candidates := candidates + [c.value];
      }
      assert profiles[..i + 1][..i] == profiles[..i];
      i := i + 1;
    }
    assert profiles[..i] == profiles;
  }

  /** Every candidate comes from a profile that matched on some field, and
      every matching profile gives a candidate. */
  lemma {:induction false} CandidatesMeaning(profiles: seq<Profile>, q: Query, ratio: (string, string) -> Ratio)
    ensures forall c :: c in Candidates(profiles, q, ratio) ==>
      c.profile in profiles && c.matchedFields == MatchedFields(q, c.profile, ratio) && c.matchedFields != [] && 0.0 < c.confidence <= 1.0
    ensures forall p :: p in profiles && MatchedFields(q, p, ratio) != [] ==>
      exists c :: c in Candidates(profiles, q, ratio) && c.profile == p
    ensures |Candidates(profiles, q, ratio)| <= |profiles|
  {
    if profiles != [] {
      var init := profiles[..|profiles| - 1];
      var last := profiles[|profiles| - 1];
      CandidatesMeaning(init, q, ratio);
      assert profiles == init + [last];
      var c := CandidateFor(q, last, ratio);
      forall p | p in profiles && MatchedFields(q, p, ratio) != []
        ensures exists c :: c in Candidates(profiles, q, ratio) && c.profile == p
      {
        if p in init {
          var c0 :| c0 in Candidates(init, q, ratio) && c0.profile == p;
          assert c0 in Candidates(profiles, q, ratio);
        } else {
          assert p == last;
          assert c.value in Candidates(profiles, q, ratio);
        }
      }
    }
  }

  function Confidence(c: Candidate): real { c.confidence }

  /** The outcome of `resolve_entity`. */
  datatype Resolution =
    | NoMatch
    | Resolved(bestMatch: Candidate, alternatives: seq<Candidate>, totalCandidates: nat)

  /** Sort by confidence (stable, largest first); the best is the first, the
      alternatives the next four at most. Ties go to the earlier candidate:
      the best match is the first candidate of maximal confidence, and for
      each confidence the reported candidates with it are the first ones
      with it in profile order. */
  function Rank(candidates: seq<Candidate>): (r: Resolution)
    ensures candidates == [] <==> r.NoMatch?
    ensures r.Resolved? ==> r.totalCandidates == |candidates| && |r.alternatives| <= 4
    ensures r.Resolved? ==> |r.alternatives| == (if |candidates| < 5 then |candidates| else 5) - 1
    ensures r.Resolved? ==> r.bestMatch in candidates
    ensures r.Resolved? ==> forall c :: c in candidates ==> r.bestMatch.confidence >= c.confidence
    ensures r.Resolved? ==> forall c :: c in r.alternatives ==> c in candidates && c.confidence <= r.bestMatch.confidence
    ensures r.Resolved? ==> forall i :: Ranking.IsFirstMaximal(candidates, Confidence, i) ==> r.bestMatch == candidates[i]
    ensures r.Resolved? ==> Ranking.SortedDesc([r.bestMatch] + r.alternatives, Confidence)
    ensures r.Resolved? ==> forall v :: Ranking.WithKey([r.bestMatch] + r.alternatives, Confidence, v) <= Ranking.WithKey(candidates, Confidence, v)
  {
    var sorted := Ranking.SortDesc(candidates, Confidence);
    if sorted == [] then NoMatch
    else
      var alternatives := if |sorted| > 1 then Ranking.Slice(sorted, 1, 5) else [];
      RankedMembers(candidates, sorted, alternatives);
      RankedTies(candidates, sorted, alternatives);
      Resolved(sorted[0], alternatives, |sorted|)
  }

  /** The head of the ranking outranks every candidate, and the alternatives
      are candidates ranked no higher. */
  lemma RankedMembers(candidates: seq<Candidate>, sorted: seq<Candidate>, alternatives: seq<Candidate>)
    requires sorted == Ranking.SortDesc(candidates, Confidence) && sorted != []
    requires alternatives == if |sorted| > 1 then Ranking.Slice(sorted, 1, 5) else []
    ensures sorted[0] in candidates
    ensures forall c :: c in candidates ==> sorted[0].confidence >= c.confidence
    ensures forall c :: c in alternatives ==> c in candidates && c.confidence <= sorted[0].confidence
  {
    Ranking.SortDescPermutes(candidates, Confidence);
    assert sorted[0] in multiset(sorted);
    forall c | c in candidates ensures sorted[0].confidence >= c.confidence {
      Ranking.HeadIsMaximal(candidates, Confidence, c);
    }
    forall c | c in alternatives ensures c in candidates && c.confidence <= sorted[0].confidence {
      var k :| 0 <= k < |alternatives| && alternatives[k] == c;
      assert c == sorted[1 + k];
      assert c in multiset(sorted);
    }
  }

  /** The reported candidates are the first five of the stable ranking, so
      ties keep profile order. */
  lemma RankedTies(candidates: seq<Candidate>, sorted: seq<Candidate>, alternatives: seq<Candidate>)
    requires sorted == Ranking.SortDesc(candidates, Confidence) && sorted != []
    requires alternatives == if |sorted| > 1 then Ranking.Slice(sorted, 1, 5) else []
    ensures |alternatives| == (if |sorted| < 5 then |sorted| else 5) - 1
    ensures forall i :: Ranking.IsFirstMaximal(candidates, Confidence, i) ==> sorted[0] == candidates[i]
    ensures Ranking.SortedDesc([sorted[0]] + alternatives, Confidence)
    ensures forall v :: Ranking.WithKey([sorted[0]] + alternatives, Confidence, v) <= Ranking.WithKey(candidates, Confidence, v)
  {
    forall i | Ranking.IsFirstMaximal(candidates, Confidence, i) ensures sorted[0] == candidates[i] {
      Ranking.HeadIsFirstMaximal(candidates, Confidence, i);
    }
    var top := if |sorted| < 5 then |sorted| else 5;
    assert [sorted[0]] + alternatives == sorted[..top];
    forall v ensures Ranking.WithKey(sorted[..top], Confidence, v) <= Ranking.WithKey(candidates, Confidence, v) {
      Ranking.WithKeyPrefix(sorted[..top], sorted, Confidence, v);
      Ranking.SortDescStable(candidates, Confidence, v);
    }
  }

  /** `resolve_entity`: score every profile, keep the positive ones, rank them. */
  method ResolveEntity(profiles: seq<Profile>, q: Query, ratio: (string, string) -> Ratio)
    returns (r: Resolution)
    ensures r == Rank(Candidates(profiles, q, ratio))
    ensures r.NoMatch? <==> forall p :: p in profiles ==> MatchedFields(q, p, ratio) == []
    ensures r.Resolved? ==> 0.0 < r.bestMatch.confidence <= 1.0 && r.bestMatch.profile in profiles
    ensures r.Resolved? ==> forall i :: Ranking.IsFirstMaximal(Candidates(profiles, q, ratio), Confidence, i) ==>
      r.bestMatch == Candidates(profiles, q, ratio)[i]
  {
    var candidates := CollectCandidates(profiles, q, ratio);
    NoCandidates(profiles, q, ratio);
    CandidatesMeaning(profiles, q, ratio);
    r := Rank(candidates);
  }

  /** There are no candidates exactly when no profile matched on any field. */
  lemma NoCandidates(profiles: seq<Profile>, q: Query, ratio: (string, string) -> Ratio)
    ensures Candidates(profiles, q, ratio) == [] <==> forall p :: p in profiles ==> MatchedFields(q, p, ratio) == []
  {
    CandidatesMeaning(profiles, q, ratio);
    var cs := Candidates(profiles, q, ratio);
    if cs != [] {
      assert cs[0] in cs;
    }
  }

  /** The alternatives are empty when there is a single candidate; otherwise
      they are the ranked candidates at positions 1 to 4. */
  lemma AlternativesSlice(candidates: seq<Candidate>)
    requires |candidates| >= 1
    ensures var sorted := Ranking.SortDesc(candidates, Confidence);
      Rank(candidates).alternatives == sorted[1..if |sorted| < 5 then |sorted| else 5]
  {
  }

  // ---------------------------------------------------------------------
  // Cross-source links
  // ---------------------------------------------------------------------

  datatype LinkKind = CardToSwipes | DeviceToWifi | FaceToCctv

  datatype Linkage = Linkage(kind: LinkKind, identifier: string, recordCount: nat, confidence: real)

  datatype LinkReport =
    | EntityNotFound
    | Links(entityId: string, name: Option<string>, linkages: seq<Linkage>, totalLinkages: nat, overallConfidence: real)

  /** One linkage when the identifier is present and its table returned rows
      (a failing lookup counts as no rows). */
  function LinkIf(kind: LinkKind, identifier: Option<string>, rows: nat): seq<Linkage>
  {
    if Truthy(identifier) && rows > 0 then [Linkage(kind, identifier.value, rows, LinkConfidence(kind))] else []
  }

  /** The fixed confidence of each kind of linkage. */
  function LinkConfidence(kind: LinkKind): real
  {
    match kind
    case CardToSwipes => 0.95
    case DeviceToWifi => 0.90
    case FaceToCctv => 0.85
  }

  function SumConfidence(ls: seq<Linkage>): real
  {
    if ls == [] then 0.0 else ls[0].confidence + SumConfidence(ls[1..])
  }

  /** `get_cross_source_links` given the profile and the number of rows each
      linked lookup returned (at most five each). */
  function CrossSourceLinks(entityId: string, profile: Option<Profile>, swipeRows: nat, wifiRows: nat, cctvRows: nat): (r: LinkReport)
    ensures profile.None? <==> r.EntityNotFound?
    ensures r.Links? ==> r.totalLinkages == |r.linkages| <= 3
    ensures r.Links? ==> (r.linkages == [] <==> r.overallConfidence == 0.0)
    ensures r.Links? && r.linkages != [] ==> 0.85 <= r.overallConfidence <= 0.95
    ensures r.Links? ==> r.entityId == entityId && r.name == profile.value.name
    ensures r.Links? ==> r.linkages == Linkages(profile.value, swipeRows, wifiRows, cctvRows)
    ensures r.Links? && r.linkages != [] ==> r.overallConfidence == SumConfidence(r.linkages) / (|r.linkages| as real)
  {
    if profile.None? then EntityNotFound
    else
      var p := profile.value;
      var ls := Linkages(p, swipeRows, wifiRows, cctvRows);
      Links(entityId, p.name, ls, |ls|, Mean(ls))
  }

  /** The linkages in the order card, device, face. */
  function Linkages(p: Profile, swipeRows: nat, wifiRows: nat, cctvRows: nat): (ls: seq<Linkage>)
    ensures |ls| <= 3
    ensures forall l :: l in ls ==> 0.85 <= l.confidence <= 0.95
    ensures forall l :: l in ls ==> l.confidence == LinkConfidence(l.kind) && l.recordCount > 0
    ensures (exists l :: l in ls && l.kind == CardToSwipes) <==> Truthy(p.cardId) && swipeRows > 0
    ensures (exists l :: l in ls && l.kind == DeviceToWifi) <==> Truthy(p.deviceHash) && wifiRows > 0
    ensures (exists l :: l in ls && l.kind == FaceToCctv) <==> Truthy(p.faceId) && cctvRows > 0
  {
    LinkIf(CardToSwipes, p.cardId, swipeRows)
    + LinkIf(DeviceToWifi, p.deviceHash, wifiRows)
    + LinkIf(FaceToCctv, p.faceId, cctvRows)
  }

  /** The mean confidence, 0 for no linkages. */
  function Mean(ls: seq<Linkage>): (m: real)
    requires forall l :: l in ls ==> 0.85 <= l.confidence <= 0.95
    ensures ls == [] <==> m == 0.0
    ensures ls != [] ==> 0.85 <= m <= 0.95
    ensures ls != [] ==> m == SumConfidence(ls) / (|ls| as real)
  {
    if ls == [] then 0.0
    else
      MeanBounds(ls);
      var n := |ls| as real;
      var sum := SumConfidence(ls);
      DivBounds(sum, n);
      sum / n
  }

  lemma DivBounds(sum: real, n: real)
    requires n > 0.0 && 0.85 * n <= sum <= 0.95 * n
    ensures 0.85 <= sum / n <= 0.95
  {
    var m := sum / n;
    assert (m - 0.85) * n == sum - 0.85 * n;
    assert (0.95 - m) * n == 0.95 * n - sum;
  }

  /** The mean of confidences drawn from [0.85, 0.95] lies in that range. */
  lemma {:induction false} MeanBounds(ls: seq<Linkage>)
    requires forall l :: l in ls ==> 0.85 <= l.confidence <= 0.95
    ensures 0.85 * (|ls| as real) <= SumConfidence(ls) <= 0.95 * (|ls| as real)
  {
    if ls != [] {
      assert forall l :: l in ls[1..] ==> l in ls;
      MeanBounds(ls[1..]);
    }
  }

  /** A profile with all three identifiers linked reports 0.90 overall. */
  lemma AllLinksExample(p: Profile)
    requires Truthy(p.cardId) && Truthy(p.deviceHash) && Truthy(p.faceId)
    ensures CrossSourceLinks("e", Some(p), 5, 5, 5).overallConfidence == 0.90
    ensures CrossSourceLinks("e", Some(p), 0, 0, 0).overallConfidence == 0.0
  {
    var ls := Linkages(p, 5, 5, 5);
    assert ls == [Linkage(CardToSwipes, p.cardId.value, 5, 0.95), Linkage(DeviceToWifi, p.deviceHash.value, 5, 0.90),
                  Linkage(FaceToCctv, p.faceId.value, 5, 0.85)];
    assert ls[1..][1..][1..] == [];
    assert SumConfidence(ls[1..][1..]) == 0.85;
    assert SumConfidence(ls[1..]) == 0.90 + 0.85;
    assert Linkages(p, 0, 0, 0) == [];
  }
}
