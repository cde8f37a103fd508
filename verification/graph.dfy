/** The query pipeline of graph.py: `normalize_input` resolves the location with the
    two-tier, state-first policy; `should_scrape` routes the result; `ask_clarification`
    renders an ambiguity as a message; `scrape_stock` fetches the stock rows through a
    scraper session that it always stops. The graph framework's wiring is replaced by
    `RunPipeline`, which dispatches through `ShouldScrape`. */
module Graph {
  import opened Collections
  import opened Models
  import opened Fuzzy
  import opened Scraping

  const NoInputMessage := "No input provided"
  const AllDistrictsCode := "-1"
  const AllDistrictsName := "All Districts"
  const ClarifyHeader := "Location is ambiguous. Did you mean:\n"
  const MissingFieldsMessage := "Missing location or blood group details."
  /** A state score above this resolves to the whole state. */
  const StateThreshold := 80
  /** A district score above this makes the district a candidate. */
  const CandidateThreshold := 60
  /** A best district score above this resolves to that district without asking. */
  const AutoResolveThreshold := 90
  /** At most this many candidates are offered. */
  const MaxSuggestions := 3

  function NotFoundMessage(query: string): string {
    "Could not find location '" + query + "'. Please be more specific."
  }

  /** A district offered for disambiguation, with its owning state's code and the
      name that code has in the states dictionary, if any. */
  datatype Candidate = Candidate(
    name: string, code: string, stateCode: string, stateName: Option<string>, score: Score)

  /** The pipeline state; None stands for a key that is absent or holds None. */
  datatype AgentState = AgentState(
    messages: seq<string>,
    locationQuery: Option<string>,
    bloodGroupQuery: Option<string>,
    bloodComponentQuery: Option<string>,
    stateCode: Option<string>,
    stateName: Option<string>,
    districtCode: Option<string>,
    districtName: Option<string>,
    bgCode: Option<string>,
    bcCode: Option<string>,
    ambiguity: Option<seq<Candidate>>,
    stockResults: Option<seq<StockResult>>,
    error: Option<string>,
    hierarchy: Hierarchy)

  /** Python truthiness of an optional string: present and non-empty. */
  predicate Present(o: Option<string>) {
    o.Some? && o.value != ""
  }

  predicate HasAmbiguity(st: AgentState) {
    st.ambiguity.Some? && st.ambiguity.value != []
  }

  /** What `normalize_input` returns, as the keys it sets in the state. */
  datatype Normalized =
    | Failed(error: string)
    | Located(stateCode: string, stateName: Option<string>, districtCode: string, districtName: string)
    | Ambiguous(candidates: seq<Candidate>)

  // ---------------------------------------------------------------- the query

  predicate HasInput(st: AgentState) {
    st.messages != [] || Present(st.locationQuery)
  }

  /** The location query, or the last message when the query is missing or empty. */
  function QueryText(st: AgentState): string
    requires HasInput(st)
  {
    if Present(st.locationQuery) then st.locationQuery.value else st.messages[|st.messages| - 1]
  }

  // ---------------------------------------------------------------- district candidates

  /** The candidate one state contributes: its best district, when that scores above 60. */
  function CandidateOf(query: string, sid: string, dm: Dict<string>, states: Dict<string>, scorer: Scorer)
    : (c: Option<Candidate>)
    ensures c.Some? <==> FuzzyMatch(query, dm, scorer).score > CandidateThreshold
    ensures c.Some? ==> c.value.score == FuzzyMatch(query, dm, scorer).score
    ensures c.Some? ==> c.value.stateCode == sid && c.value.stateName == Lookup(states, sid)
    ensures c.Some? ==> c.value.name == FuzzyMatch(query, dm, scorer).name.value &&
                        c.value.code == FuzzyMatch(query, dm, scorer).code.value
  {
    var m := FuzzyMatch(query, dm, scorer);
    if m.score > CandidateThreshold then
      Some(Candidate(m.name.value, m.code.value, sid, Lookup(states, sid), m.score))
    else None
  }

  function AsSeq(o: Option<Candidate>): seq<Candidate> {
    if o.Some? then [o.value] else []
  }

  /** The candidates in the order the states are scanned. */
  function CandidatesIn(query: string, entries: seq<(string, Dict<string>)>, states: Dict<string>, scorer: Scorer)
    : seq<Candidate>
  {
    if entries == [] then []
    else
      var e := entries[|entries| - 1];
      CandidatesIn(query, entries[..|entries| - 1], states, scorer) + AsSeq(CandidateOf(query, e.0, e.1, states, scorer))
  }

  lemma CandidatesInSnoc(
    query: string, entries: seq<(string, Dict<string>)>, states: Dict<string>, scorer: Scorer, i: nat)
    requires i < |entries|
    ensures CandidatesIn(query, entries[..i + 1], states, scorer) ==
            CandidatesIn(query, entries[..i], states, scorer) +
            AsSeq(CandidateOf(query, entries[i].0, entries[i].1, states, scorer))
  {
    assert entries[..i + 1][..i] == entries[..i];
  }

  /** Each state's best district score, in scanning order. */
  function DistrictScores(query: string, entries: seq<(string, Dict<string>)>, scorer: Scorer): seq<int> {
    seq(|entries|, i requires 0 <= i < |entries| => FuzzyMatch(query, entries[i].1, scorer).score)
  }

  function CandidateScores(cs: seq<Candidate>): seq<int> {
    seq(|cs|, i requires 0 <= i < |cs| => cs[i].score)
  }

  /** The candidate kept by a running best that changes only on a strictly greater score. */
  function Best(cs: seq<Candidate>): Candidate
    requires cs != []
  {
    cs[ArgMaxFirst(CandidateScores(cs))]
  }

  /** No candidate scores more than the best one. */
  lemma BestIsMax(cs: seq<Candidate>, x: Candidate)
    requires x in cs
    ensures x.score <= Best(cs).score
  {
    var j :| 0 <= j < |cs| && cs[j] == x;
    var scores := CandidateScores(cs);
    assert scores[j] <= scores[ArgMaxFirst(scores)];
  }

  /** Appending a candidate replaces the best one only when it scores strictly more. */
  lemma BestSnoc(cs: seq<Candidate>, c: Candidate)
    ensures Best(cs + [c]) == if cs != [] && c.score <= Best(cs).score then Best(cs) else c
  {
    var scores := CandidateScores(cs + [c]);
    if cs == [] {
      assert scores == [c.score];
    } else {
      assert scores == CandidateScores(cs) + [c.score];
      ArgMaxFirstSnoc(CandidateScores(cs), c.score);
    }
  }

  /** Every candidate scores above 60, carries its owning state's name, and is what
      some state contributes. */
  lemma {:induction false} CandidatesSound(
    query: string, entries: seq<(string, Dict<string>)>, states: Dict<string>, scorer: Scorer)
    ensures forall c :: c in CandidatesIn(query, entries, states, scorer) ==>
              c.score > CandidateThreshold && c.stateName == Lookup(states, c.stateCode) &&
              exists i :: 0 <= i < |entries| && CandidateOf(query, entries[i].0, entries[i].1, states, scorer) == Some(c)
  {
    if entries != [] {
      var p := entries[..|entries| - 1];
      var e := entries[|entries| - 1];
      CandidatesSound(query, p, states, scorer);
      forall c | c in CandidatesIn(query, entries, states, scorer)
        ensures exists i :: 0 <= i < |entries| && CandidateOf(query, entries[i].0, entries[i].1, states, scorer) == Some(c)
      {
        if c in CandidatesIn(query, p, states, scorer) {
          var i :| 0 <= i < |p| && CandidateOf(query, p[i].0, p[i].1, states, scorer) == Some(c);
          assert entries[i] == p[i];
        } else {
          assert CandidateOf(query, entries[|entries| - 1].0, entries[|entries| - 1].1, states, scorer) == Some(c);
        }
      }
    }
  }

  lemma CandidateAbove(
    query: string, entries: seq<(string, Dict<string>)>, states: Dict<string>, scorer: Scorer, x: Candidate)
    requires x in CandidatesIn(query, entries, states, scorer)
    ensures x.score > CandidateThreshold
  {
    CandidatesSound(query, entries, states, scorer);
  }

  /** Every state whose best district scores above 60 contributes a candidate. */
  lemma {:induction false} CandidatesComplete(
    query: string, entries: seq<(string, Dict<string>)>, states: Dict<string>, scorer: Scorer, i: nat)
    requires i < |entries| && FuzzyMatch(query, entries[i].1, scorer).score > CandidateThreshold
    ensures CandidateOf(query, entries[i].0, entries[i].1, states, scorer).value in CandidatesIn(query, entries, states, scorer)
  {
    var p := entries[..|entries| - 1];
    if i < |p| {
      assert entries[i] == p[i];
      CandidatesComplete(query, p, states, scorer, i);
    }
  }

  /** The running best over the candidates is the first state of highest district
      score, and there are candidates exactly when that score is above 60. */
  ghost predicate TracksBest(
    query: string, entries: seq<(string, Dict<string>)>, states: Dict<string>, scorer: Scorer)
  {
    var cs := CandidatesIn(query, entries, states, scorer);
    var scores := DistrictScores(query, entries, scorer);
    (cs == [] <==> MaxOr0(scores) <= CandidateThreshold) &&
    (cs != [] ==>
       var k := ArgMaxFirst(scores);
       Some(Best(cs)) == CandidateOf(query, entries[k].0, entries[k].1, states, scorer))
  }

  lemma TracksBestStep(
    query: string, entries: seq<(string, Dict<string>)>, states: Dict<string>, scorer: Scorer)
    requires entries != [] && TracksBest(query, entries[..|entries| - 1], states, scorer)
    ensures TracksBest(query, entries, states, scorer)
  {
    var p := entries[..|entries| - 1];
    var e := entries[|entries| - 1];
    DistrictScoresSnoc(query, entries, scorer);
    var ce := CandidateOf(query, e.0, e.1, states, scorer);
    assert CandidatesIn(query, entries, states, scorer) == CandidatesIn(query, p, states, scorer) + AsSeq(ce);
    if p == [] {
      TracksBestFirst(query, entries, states, scorer);
    } else if ce.None? {
      TracksBestSkip(query, entries, states, scorer);
    } else {
      TracksBestTake(query, entries, states, scorer);
    }
  }

  lemma DistrictScoresSnoc(query: string, entries: seq<(string, Dict<string>)>, scorer: Scorer)
    requires entries != []
    ensures DistrictScores(query, entries, scorer) ==
            DistrictScores(query, entries[..|entries| - 1], scorer) + [FuzzyMatch(query, entries[|entries| - 1].1, scorer).score]
  {
  }

  /** The step for the first state. */
  lemma TracksBestFirst(
    query: string, entries: seq<(string, Dict<string>)>, states: Dict<string>, scorer: Scorer)
    requires |entries| == 1
    ensures TracksBest(query, entries, states, scorer)
  {
    assert DistrictScores(query, entries, scorer) == [FuzzyMatch(query, entries[0].1, scorer).score];
    assert entries[..0] == [];
    var ce := CandidateOf(query, entries[0].0, entries[0].1, states, scorer);
    assert CandidatesIn(query, entries, states, scorer) == AsSeq(ce);
    if ce.Some? {
      assert CandidateScores([ce.value]) == [ce.value.score];
    }
  }

  /** The step for a last state that contributes no candidate. */
  lemma TracksBestSkip(
    query: string, entries: seq<(string, Dict<string>)>, states: Dict<string>, scorer: Scorer)
    requires |entries| > 1 && TracksBest(query, entries[..|entries| - 1], states, scorer)
    requires CandidateOf(query, entries[|entries| - 1].0, entries[|entries| - 1].1, states, scorer).None?
    requires CandidatesIn(query, entries, states, scorer) == CandidatesIn(query, entries[..|entries| - 1], states, scorer)
    requires DistrictScores(query, entries, scorer) ==
             DistrictScores(query, entries[..|entries| - 1], scorer) + [FuzzyMatch(query, entries[|entries| - 1].1, scorer).score]
    ensures TracksBest(query, entries, states, scorer)
  {
    var p := entries[..|entries| - 1];
    var sp := DistrictScores(query, p, scorer);
    var se := FuzzyMatch(query, entries[|entries| - 1].1, scorer).score;
    ArgMaxFirstSnoc(sp, se);
    assert entries[ArgMaxFirst(sp)] == p[ArgMaxFirst(sp)];
  }

  /** The step for a last state that contributes a candidate. */
  lemma TracksBestTake(
    query: string, entries: seq<(string, Dict<string>)>, states: Dict<string>, scorer: Scorer)
    requires |entries| > 1 && TracksBest(query, entries[..|entries| - 1], states, scorer)
    requires CandidateOf(query, entries[|entries| - 1].0, entries[|entries| - 1].1, states, scorer).Some?
    requires CandidatesIn(query, entries, states, scorer) ==
             CandidatesIn(query, entries[..|entries| - 1], states, scorer) +
             [CandidateOf(query, entries[|entries| - 1].0, entries[|entries| - 1].1, states, scorer).value]
    requires DistrictScores(query, entries, scorer) ==
             DistrictScores(query, entries[..|entries| - 1], scorer) + [FuzzyMatch(query, entries[|entries| - 1].1, scorer).score]
    ensures TracksBest(query, entries, states, scorer)
  {
    var p := entries[..|entries| - 1];
    var sp := DistrictScores(query, p, scorer);
    var se := FuzzyMatch(query, entries[|entries| - 1].1, scorer).score;
    var csp := CandidatesIn(query, p, states, scorer);
    var c := CandidateOf(query, entries[|entries| - 1].0, entries[|entries| - 1].1, states, scorer).value;
    ArgMaxFirstSnoc(sp, se);
    BestSnoc(csp, c);
    assert entries[ArgMaxFirst(sp)] == p[ArgMaxFirst(sp)];
  }

  lemma {:induction false} CandidatesTrackBest(
    query: string, entries: seq<(string, Dict<string>)>, states: Dict<string>, scorer: Scorer)
    ensures var cs := CandidatesIn(query, entries, states, scorer);
            var scores := DistrictScores(query, entries, scorer);
            (cs == [] <==> MaxOr0(scores) <= CandidateThreshold) &&
            (cs != [] ==>
               var k := ArgMaxFirst(scores);
               Some(Best(cs)) == CandidateOf(query, entries[k].0, entries[k].1, states, scorer))
  {
    if entries != [] {
      CandidatesTrackBest(query, entries[..|entries| - 1], states, scorer);
      TracksBestStep(query, entries, states, scorer);
    }
  }

  // ---------------------------------------------------------------- stable sort, top three

  /** Insert `c` before the first element that does not score more than it. */
  function InsertByScore(c: Candidate, s: seq<Candidate>): seq<Candidate> {
    if s == [] || s[0].score <= c.score then [c] + s
    else [s[0]] + InsertByScore(c, s[1..])
  }

  /** `list.sort(key=score, reverse=True)`: descending by score, stable. */
  function SortByScoreDesc(cs: seq<Candidate>): seq<Candidate> {
    if cs == [] then [] else InsertByScore(cs[0], SortByScoreDesc(cs[1..]))
  }

  predicate SortedDesc(s: seq<Candidate>) {
    forall i, j :: 0 <= i < j < |s| ==> s[i].score >= s[j].score
  }

  /** The elements of `s` with score `v`, in order. */
  function WithScore(s: seq<Candidate>, v: int): seq<Candidate> {
    if s == [] then [] else (if s[0].score == v then [s[0]] else []) + WithScore(s[1..], v)
  }

  /** `s[:n]`. */
  function Take<T>(s: seq<T>, n: nat): (r: seq<T>)
    ensures r <= s
  {
    if |s| <= n then s else s[..n]
  }

  /** A prefix keeps no element more often than the whole sequence does. */
  lemma TakeMultiset<T>(s: seq<T>, n: nat)
    ensures multiset(Take(s, n)) <= multiset(s)
  {
    var xs := Take(s, n);
    assert s == xs + s[|xs|..];
  }

  lemma {:induction false} InsertMultiset(c: Candidate, s: seq<Candidate>)
    ensures multiset(InsertByScore(c, s)) == multiset(s) + multiset{c}
  {
    if !(s == [] || s[0].score <= c.score) {
      InsertMultiset(c, s[1..]);
      assert s == [s[0]] + s[1..];
    }
  }

  lemma SortedTail(s: seq<Candidate>)
    requires SortedDesc(s) && s != []
    ensures SortedDesc(s[1..])
    ensures forall x :: x in s ==> x.score <= s[0].score
  {
    forall x | x in s ensures x.score <= s[0].score {
      var j :| 0 <= j < |s| && s[j] == x;
    }
  }

  lemma ConsSorted(h: Candidate, rest: seq<Candidate>)
    requires SortedDesc(rest)
    requires forall x :: x in rest ==> x.score <= h.score
    ensures SortedDesc([h] + rest)
  {
    var r := [h] + rest;
    forall i, j | 0 <= i < j < |r| ensures r[i].score >= r[j].score {
      assert r[j] == rest[j - 1];
      if i > 0 {
        assert r[i] == rest[i - 1];
      } else {
        assert rest[j - 1] in rest;
      }
    }
  }

  lemma {:induction false} InsertBounded(c: Candidate, s: seq<Candidate>, b: int)
    requires c.score <= b
    requires forall x :: x in s ==> x.score <= b
    ensures forall x :: x in InsertByScore(c, s) ==> x.score <= b
  {
    if !(s == [] || s[0].score <= c.score) {
      InsertBounded(c, s[1..], b);
    }
  }

  lemma {:induction false} InsertSorted(c: Candidate, s: seq<Candidate>)
    requires SortedDesc(s)
    ensures SortedDesc(InsertByScore(c, s))
  {
    if s == [] || s[0].score <= c.score {
      if s != [] {
        SortedTail(s);
      }
      ConsSorted(c, s);
    } else {
      SortedTail(s);
      InsertSorted(c, s[1..]);
      InsertBounded(c, s[1..], s[0].score);
      ConsSorted(s[0], InsertByScore(c, s[1..]));
    }
  }

  lemma WithScoreCons(x: Candidate, t: seq<Candidate>, v: int)
    ensures WithScore([x] + t, v) == (if x.score == v then [x] else []) + WithScore(t, v)
  {
    assert ([x] + t)[1..] == t;
  }

  /** Inserting `c` puts it ahead of every element of its own score. */
  lemma {:induction false} InsertWithScore(c: Candidate, s: seq<Candidate>, v: int)
    ensures WithScore(InsertByScore(c, s), v) == (if c.score == v then [c] else []) + WithScore(s, v)
  {
    if s == [] || s[0].score <= c.score {
      WithScoreCons(c, s, v);
    } else {
      var rest := InsertByScore(c, s[1..]);
      var w := WithScore(s[1..], v);
      InsertWithScore(c, s[1..], v);
      WithScoreCons(s[0], rest, v);
      WithScoreCons(s[0], s[1..], v);
      assert s == [s[0]] + s[1..];
      if c.score == v {
        assert WithScore(InsertByScore(c, s), v) == [c] + w;
      } else {
        assert WithScore(InsertByScore(c, s), v) == WithScore(s, v);
      }
    }
  }

  /** The sort orders by descending score, keeps every candidate, and keeps the
      discovery order of candidates with equal scores. */
  lemma {:induction false} SortSpec(cs: seq<Candidate>)
    ensures SortedDesc(SortByScoreDesc(cs))
    ensures multiset(SortByScoreDesc(cs)) == multiset(cs)
    ensures |SortByScoreDesc(cs)| == |cs|
    ensures forall v :: WithScore(SortByScoreDesc(cs), v) == WithScore(cs, v)
  {
    if cs != [] {
      SortSpec(cs[1..]);
      InsertSorted(cs[0], SortByScoreDesc(cs[1..]));
      InsertMultiset(cs[0], SortByScoreDesc(cs[1..]));
      assert cs == [cs[0]] + cs[1..];
      assert |multiset(SortByScoreDesc(cs))| == |multiset(cs)|;
      forall v ensures WithScore(SortByScoreDesc(cs), v) == WithScore(cs, v) {
        InsertWithScore(cs[0], SortByScoreDesc(cs[1..]), v);
      }
    }
  }

  /** The first element of `s` scoring `v` heads the elements scoring `v`. */
  lemma {:induction false} WithScoreHead(s: seq<Candidate>, v: int, k: nat)
    requires k < |s| && s[k].score == v
    requires forall j :: 0 <= j < k ==> s[j].score != v
    ensures WithScore(s, v) != [] && WithScore(s, v)[0] == s[k]
  {
    if k > 0 {
      WithScoreHead(s[1..], v, k - 1);
    }
  }

  /** The sorted list starts with the best candidate: the first one found with the
      highest score. */
  lemma SortHeadIsBest(cs: seq<Candidate>)
    requires cs != []
    ensures SortByScoreDesc(cs)[0] == Best(cs)
  {
    var s := SortByScoreDesc(cs);
    SortSpec(cs);
    var scores := CandidateScores(cs);
    var k := ArgMaxFirst(scores);
    var m := cs[k].score;
    assert s[0] in multiset(cs);
    BestIsMax(cs, s[0]);
    assert cs[k] in multiset(s);
    SortedTail(s);
    assert s[0].score == m;
    WithScoreHead(s, m, 0);
    forall j | 0 <= j < k ensures cs[j].score != m {
      assert scores[j] < scores[k];
    }
    WithScoreHead(cs, m, k);
  }

  /** Keeping the first n >= 1 elements of a sorted list keeps it sorted, and nothing
      dropped scores more than the last element kept. */
  lemma TakeOfSorted(s: seq<Candidate>, n: nat)
    requires SortedDesc(s) && s != [] && n >= 1
    ensures var xs := Take(s, n);
            xs != [] && xs == s[..|xs|] && SortedDesc(xs) &&
            forall j :: |xs| <= j < |s| ==> s[j].score <= xs[|xs| - 1].score
  {
    var xs := Take(s, n);
    assert xs == s[..|xs|];
    forall j | |xs| <= j < |s| ensures s[j].score <= xs[|xs| - 1].score {
      assert s[|xs| - 1] == xs[|xs| - 1];
    }
  }

  // ---------------------------------------------------------------- normalize_input

  /** The district tier: resolve to the best candidate above 90, else offer the top
      three candidates by descending score, else report the query as not found. */
  function DistrictTier(q: string, h: Hierarchy, scorer: Scorer): Normalized {
    var cs := CandidatesIn(q, h.districts, h.states, scorer);
    if cs != [] && Best(cs).score > AutoResolveThreshold then
      Located(Best(cs).stateCode, Lookup(h.states, Best(cs).stateCode), Best(cs).code, Best(cs).name)
    else if cs != [] then
      Ambiguous(Take(SortByScoreDesc(cs), MaxSuggestions))
    else
      Failed(NotFoundMessage(q))
  }

  /** What `normalize_input` computes: the state tier first, then the district tier. */
  function Normalize(st: AgentState, scorer: Scorer): Normalized {
    if !HasInput(st) then Failed(NoInputMessage)
    else
      var q := QueryText(st);
      var sm := FuzzyMatch(q, st.hierarchy.states, scorer);
      if sm.score > StateThreshold then
        Located(sm.code.value, Some(sm.name.value), AllDistrictsCode, AllDistrictsName)
      else
        DistrictTier(q, st.hierarchy, scorer)
  }

  /** The loop's best-so-far variables hold the best candidate's score, code, name and
      state, or a score of 0 before the first candidate. */
  ghost predicate RunningBest(cs: seq<Candidate>, bestScore: int, bestCode: Option<string>,
                              bestName: Option<string>, bestState: Option<string>)
  {
    (cs == [] ==> bestScore == 0) &&
    (cs != [] ==>
       bestScore == Best(cs).score && bestCode == Some(Best(cs).code) &&
       bestName == Some(Best(cs).name) && bestState == Some(Best(cs).stateCode))
  }

  /** A new candidate takes over the best-so-far variables exactly when it scores more. */
  lemma RunningBestStep(cs: seq<Candidate>, c: Candidate, bestScore: int, bestCode: Option<string>,
                        bestName: Option<string>, bestState: Option<string>)
    requires RunningBest(cs, bestScore, bestCode, bestName, bestState) && c.score > 0
    ensures if c.score > bestScore then
              RunningBest(cs + [c], c.score, Some(c.code), Some(c.name), Some(c.stateCode))
            else
              RunningBest(cs + [c], bestScore, bestCode, bestName, bestState)
  {
    BestSnoc(cs, c);
  }

  /** `normalize_input`: a loop over the states' district dictionaries appends the
      candidates and keeps the best one seen so far. */
  method NormalizeInput(st: AgentState, scorer: Scorer) returns (r: Normalized)
    ensures r == Normalize(st, scorer)
  {
    if !HasInput(st) {
      return Failed(NoInputMessage);
    }
    var q := if Present(st.locationQuery) then st.locationQuery.value else st.messages[|st.messages| - 1];
    var states := st.hierarchy.states;
    var sm := FuzzyMatch(q, states, scorer);
    if sm.score > StateThreshold {
      return Located(sm.code.value, Some(sm.name.value), AllDistrictsCode, AllDistrictsName);
    }
    var bestScore := 0;
    var bestCode: Option<string> := None;
    var bestName: Option<string> := None;
    var bestState: Option<string> := None;
    var candidates: seq<Candidate> := [];
    var districts := st.hierarchy.districts;
    var i := 0;
    while i < |districts|
      invariant 0 <= i <= |districts|
      invariant candidates == CandidatesIn(q, districts[..i], states, scorer)
      invariant RunningBest(candidates, bestScore, bestCode, bestName, bestState)
    {
      var sid := districts[i].0;
      var dm := districts[i].1;
      var m := FuzzyMatch(q, dm, scorer);
      CandidatesInSnoc(q, districts, states, scorer, i);
      if m.score > CandidateThreshold {
        var c := Candidate(m.name.value, m.code.value, sid, Lookup(states, sid), m.score);
        assert CandidateOf(q, sid, dm, states, scorer) == Some(c);
        RunningBestStep(candidates, c, bestScore, bestCode, bestName, bestState);
        candidates := candidates + [c];
        if m.score > bestScore {
          bestScore := m.score;
          bestCode := m.code;
          bestName := m.name;
          bestState := Some(sid);
        }
      }
      i := i + 1;
    }
    assert districts[..i] == districts;
    if bestScore > AutoResolveThreshold {
      return Located(bestState.value, Lookup(states, bestState.value), bestCode.value, bestName.value);
    }
    if candidates != [] {
      var sorted := SortByScoreDesc(candidates);
      return Ambiguous(Take(sorted, MaxSuggestions));
    }
    return Failed(NotFoundMessage(q));
  }

  /** A state name scoring 100 resolves to a whole state, whose name also scores 100,
      without consulting the district tier: the first state name scoring 100, under the
      last code carrying that name (not necessarily the state `i`). */
  lemma ExactStateResolves(st: AgentState, scorer: Scorer, i: nat)
    requires HasInput(st) && i < |st.hierarchy.states|
    requires scorer(QueryText(st), st.hierarchy.states[i].1) == 100
    ensures var r := Normalize(st, scorer);
            var states := st.hierarchy.states;
            r.Located? && r.districtCode == AllDistrictsCode && r.districtName == AllDistrictsName &&
            r.stateName.Some? && Lookup(states, r.stateCode) == r.stateName &&
            scorer(QueryText(st), r.stateName.value) == 100 &&
            (exists k :: 0 <= k < |states| && states[k].1 == r.stateName.value &&
                         forall j :: 0 <= j < k ==> scorer(QueryText(st), states[j].1) < 100) &&
            (exists k :: 0 <= k < |states| && states[k] == (r.stateCode, r.stateName.value) &&
                         forall j :: k < j < |states| ==> states[j].1 != r.stateName.value)
  {
    FuzzyMatchSpec(QueryText(st), st.hierarchy.states, scorer);
  }

  /** A district name scoring 100 makes the district tier resolve, to a district of
      score 100 in its owning state. */
  lemma PerfectDistrictResolves(q: string, h: Hierarchy, scorer: Scorer, i: nat, j: nat)
    requires i < |h.districts| && j < |h.districts[i].1|
    requires scorer(q, h.districts[i].1[j].1) == 100
    ensures var r := DistrictTier(q, h, scorer);
            r.Located? && scorer(q, r.districtName) == 100 &&
            exists k :: 0 <= k < |h.districts| && h.districts[k].0 == r.stateCode &&
                        Lookup(h.districts[k].1, r.districtCode) == Some(r.districtName)
  {
    var entries := h.districts;
    var scores := DistrictScores(q, entries, scorer);
    PerfectNameWins(q, entries[i].1, scorer, j);
    assert scores[i] == 100;
    CandidatesTrackBest(q, entries, h.states, scorer);
    var k := ArgMaxFirst(scores);
    assert scores[k] == 100;
    var cs := CandidatesIn(q, entries, h.states, scorer);
    var m := FuzzyMatch(q, entries[k].1, scorer);
    FuzzyMatchSpec(q, entries[k].1, scorer);
    assert Best(cs) == Candidate(m.name.value, m.code.value, entries[k].0, Lookup(h.states, entries[k].0), m.score);
  }

  /** When no state scores above 80, a district name scoring 100 resolves to a
      district, never to an ambiguity: the first district scoring 100, in its own state. */
  lemma ExactDistrictResolves(st: AgentState, scorer: Scorer, i: nat, j: nat)
    requires HasInput(st)
    requires FuzzyMatch(QueryText(st), st.hierarchy.states, scorer).score <= StateThreshold
    requires i < |st.hierarchy.districts| && j < |st.hierarchy.districts[i].1|
    requires scorer(QueryText(st), st.hierarchy.districts[i].1[j].1) == 100
    ensures var r := Normalize(st, scorer);
            r.Located? && scorer(QueryText(st), r.districtName) == 100 &&
            exists k :: 0 <= k < |st.hierarchy.districts| && st.hierarchy.districts[k].0 == r.stateCode &&
                        Lookup(st.hierarchy.districts[k].1, r.districtCode) == Some(r.districtName)
  {
    PerfectDistrictResolves(QueryText(st), st.hierarchy, scorer, i, j);
  }

  /** The first three of the sorted candidates: one to three of them, in descending
      order, headed by the best one, and none of the others scores more than the last. */
  lemma TopThree(cs: seq<Candidate>)
    requires cs != []
    ensures var xs := Take(SortByScoreDesc(cs), MaxSuggestions);
            1 <= |xs| <= MaxSuggestions && |xs| == (if |cs| < MaxSuggestions then |cs| else MaxSuggestions) &&
            SortedDesc(xs) && xs[0] == Best(cs) &&
            multiset(xs) <= multiset(cs) &&
            (forall x :: x in xs ==> x in cs) &&
            (forall c :: c in cs && c !in xs ==> c.score <= xs[|xs| - 1].score)
  {
    var s := SortByScoreDesc(cs);
    var xs := Take(s, MaxSuggestions);
    SortSpec(cs);
    SortHeadIsBest(cs);
    TakeOfSorted(s, MaxSuggestions);
    TakeMultiset(s, MaxSuggestions);
    forall x | x in xs ensures x in cs {
      assert x in multiset(s);
    }
    forall c | c in cs && c !in xs ensures c.score <= xs[|xs| - 1].score {
      assert c in multiset(s);
      var j :| 0 <= j < |s| && s[j] == c;
    }
  }

  /** An ambiguity lists one to three candidates, sorted by descending score, headed by
      the best one; all of them are candidates scoring above 60 and at most 90, and
      every candidate left out scores no more than the last one listed. */
  lemma AmbiguityList(q: string, h: Hierarchy, scorer: Scorer)
    requires DistrictTier(q, h, scorer).Ambiguous?
    ensures var xs := DistrictTier(q, h, scorer).candidates;
            var cs := CandidatesIn(q, h.districts, h.states, scorer);
            1 <= |xs| <= MaxSuggestions && |xs| == (if |cs| < MaxSuggestions then |cs| else MaxSuggestions) &&
            SortedDesc(xs) && xs[0] == Best(cs) && multiset(xs) <= multiset(cs) &&
            (forall x :: x in xs ==> x in cs && CandidateThreshold < x.score <= AutoResolveThreshold) &&
            (forall c :: c in cs && c !in xs ==> c.score <= xs[|xs| - 1].score)
  {
    var cs := CandidatesIn(q, h.districts, h.states, scorer);
    var xs := DistrictTier(q, h, scorer).candidates;
    TopThree(cs);
    forall x | x in xs ensures CandidateThreshold < x.score <= AutoResolveThreshold {
      BestIsMax(cs, x);
      CandidateAbove(q, h.districts, h.states, scorer, x);
    }
  }

  // ---------------------------------------------------------------- routing

  datatype Route = End | Clarify | Scrape

  /** `should_scrape`: an error ends the run, else an ambiguity asks for clarification,
      else a state code and a district code go to the scrape step, else the run ends. */
  function ShouldScrape(st: AgentState): Route {
    if Present(st.error) then End
    else if HasAmbiguity(st) then Clarify
    else if Present(st.stateCode) && Present(st.districtCode) then Scrape
    else End
  }

  /** The state after `normalize_input`'s keys are written into it. */
  function Merge(st: AgentState, n: Normalized): AgentState {
    match n
    case Failed(e) => st.(error := Some(e))
    case Located(sc, sn, dc, dn) =>
      st.(stateCode := Some(sc), stateName := sn, districtCode := Some(dc), districtName := Some(dn))
    case Ambiguous(cs) => st.(ambiguity := Some(cs))
  }

  /** Starting without an error or an ambiguity, a failure ends the run, an ambiguity
      always goes to clarification, and a resolved location goes to the scrape step
      exactly when neither of its codes is empty. */
  lemma RouteAfterNormalize(st: AgentState, scorer: Scorer)
    requires !Present(st.error) && !HasAmbiguity(st)
    ensures var n := Normalize(st, scorer);
            var route := ShouldScrape(Merge(st, n));
            (n.Failed? ==> n.error != "" && route == End) &&
            (n.Ambiguous? ==> n.candidates != [] && route == Clarify) &&
            (n.Located? ==> (route == Scrape <==> n.stateCode != "" && n.districtCode != ""))
  {
    var n := Normalize(st, scorer);
    if n.Ambiguous? {
      AmbiguityList(QueryText(st), st.hierarchy, scorer);
    }
    if n.Failed? && HasInput(st) {
      assert n.error[0] == 'C';
    }
  }

  // ---------------------------------------------------------------- ask_clarification

  /** `f"{x}"` of an optional string: None prints as "None". */
  function NameOrNone(o: Option<string>): string {
    if o.Some? then o.value else "None"
  }

  function ClarifyLine(c: Candidate): string {
    "- " + c.name + " in " + NameOrNone(c.stateName) + "?\n"
  }

  /** The concatenation of the parts, in order. */
  function Concat(parts: seq<string>): string {
    if parts == [] then "" else Concat(parts[..|parts| - 1]) + parts[|parts| - 1]
  }

  /** Concatenating the parts of two lists is concatenating their concatenations. */
  lemma {:induction false} ConcatAppend(a: seq<string>, b: seq<string>)
    ensures Concat(a + b) == Concat(a) + Concat(b)
    decreases |b|
  {
    if b == [] {
      assert a + b == a;
    } else {
      var b' := b[..|b| - 1];
      var last := b[|b| - 1];
      assert b == b' + [last];
      assert a + b == (a + b') + [last];
      ConcatAppend(a, b');
    }
  }

  /** One line per candidate, in list order. */
  function Lines(cs: seq<Candidate>): seq<string> {
    seq(|cs|, i requires 0 <= i < |cs| => ClarifyLine(cs[i]))
  }

  function ClarifyLines(cs: seq<Candidate>): string {
    Concat(Lines(cs))
  }

  function ClarificationText(cs: seq<Candidate>): string {
    ClarifyHeader + ClarifyLines(cs)
  }

  /** The lines of a concatenation are the lines of its parts. */
  lemma ClarifyLinesAppend(a: seq<Candidate>, b: seq<Candidate>)
    ensures ClarifyLines(a + b) == ClarifyLines(a) + ClarifyLines(b)
  {
    assert Lines(a + b) == Lines(a) + Lines(b);
    ConcatAppend(Lines(a), Lines(b));
  }

  /** One more candidate adds its line at the end. */
  lemma ClarifyLinesSnoc(cs: seq<Candidate>, i: nat)
    requires i < |cs|
    ensures ClarifyLines(cs[..i + 1]) == ClarifyLines(cs[..i]) + ClarifyLine(cs[i])
  {
    assert Lines(cs[..i + 1]) == Lines(cs[..i]) + [ClarifyLine(cs[i])];
  }

  /** The k-th candidate's line stands between the lines of the candidates before it
      and those after it. */
  lemma ClarifyLineAt(cs: seq<Candidate>, k: nat)
    requires k < |cs|
    ensures ClarifyLines(cs) == ClarifyLines(cs[..k]) + ClarifyLine(cs[k]) + ClarifyLines(cs[k + 1..])
  {
    var upto := cs[..k + 1];
    assert cs == upto + cs[k + 1..];
    ClarifyLinesAppend(upto, cs[k + 1..]);
    ClarifyLinesSnoc(cs, k);
  }

  function AmbiguityOf(st: AgentState): seq<Candidate> {
    if st.ambiguity.Some? then st.ambiguity.value else []
  }

  /** `ask_clarification`: the header followed by one "- name in state?" line per
      candidate, accumulated in a loop. */
  method AskClarification(st: AgentState) returns (msg: string)
    ensures msg == ClarificationText(AmbiguityOf(st))
  {
    var cs := AmbiguityOf(st);
    msg := ClarifyHeader;
    var i := 0;
    while i < |cs|
      invariant 0 <= i <= |cs|
      invariant msg == ClarifyHeader + ClarifyLines(cs[..i])
    {
      ClarifyLinesSnoc(cs, i);
      assert msg + ClarifyLine(cs[i]) == ClarifyHeader + (ClarifyLines(cs[..i]) + ClarifyLine(cs[i]));
      msg := msg + ClarifyLine(cs[i]);
      i := i + 1;
    }
    assert cs[..i] == cs;
  }

  // ---------------------------------------------------------------- scrape_stock

  datatype ScrapeUpdate = ScrapeFailed(error: string) | Scraped(rows: seq<StockResult>)

  predicate HasFetchFields(st: AgentState) {
    Present(st.stateCode) && Present(st.districtCode) && Present(st.bgCode)
  }

  /** What `scrape_stock` returns: a missing-fields error, the fetched rows, or the
      text of the exception the fetch raised. */
  function ScrapeOutcome(st: AgentState, source: FetchSource): ScrapeUpdate {
    if !HasFetchFields(st) then ScrapeFailed(MissingFieldsMessage)
    else
      match source(st.stateCode.value, st.districtCode.value, st.bgCode.value, st.bcCode)
      case Rows(rows) => Scraped(rows)
      case Raised(m) => ScrapeFailed(m)
  }

  /** `scrape_stock`: check the fields, then start a fresh scraper session, fetch, and
      stop the session whether or not the fetch raised. */
  method ScrapeStock(st: AgentState, source: FetchSource) returns (u: ScrapeUpdate, ghost session: Scraper?)
    ensures u == ScrapeOutcome(st, source)
    ensures !HasFetchFields(st) ==> session == null
    ensures HasFetchFields(st) ==>
              session != null && fresh(session) && session.source == source &&
              session.starts == 1 && session.stops == 1 && !session.open
  {
    if !HasFetchFields(st) {
      return ScrapeFailed(MissingFieldsMessage), null;
    }
    var scraper := new Scraper(source);
    scraper.Start();
    var r := scraper.FetchStock(st.stateCode.value, st.districtCode.value, st.bgCode.value, st.bcCode);
    match r {
      case Rows(rows) => u := Scraped(rows);
      case Raised(m) => u := ScrapeFailed(m);
    }
    scraper.Stop();
    session := scraper;
  }

  function ApplyScrape(st: AgentState, u: ScrapeUpdate): AgentState {
    match u
    case ScrapeFailed(e) => st.(error := Some(e))
    case Scraped(rows) => st.(stockResults := Some(rows))
  }

  // ---------------------------------------------------------------- the whole run

  /** normalize, then END, clarify or scrape as `should_scrape` decides. */
  function Pipeline(init: AgentState, scorer: Scorer, source: FetchSource): AgentState {
    var s1 := Merge(init, Normalize(init, scorer));
    match ShouldScrape(s1)
    case End => s1
    case Clarify => s1.(error := Some(ClarificationText(AmbiguityOf(s1))))
    case Scrape => ApplyScrape(s1, ScrapeOutcome(s1, source))
  }

  method RunPipeline(init: AgentState, scorer: Scorer, source: FetchSource) returns (final: AgentState)
    ensures final == Pipeline(init, scorer, source)
  {
    var n := NormalizeInput(init, scorer);
    var s1 := Merge(init, n);
    match ShouldScrape(s1) {
      case End =>
        final := s1;
      case Clarify =>
        var msg := AskClarification(s1);
        final := s1.(error := Some(msg));
      case Scrape =>
        var u, _ := ScrapeStock(s1, source);
        final := ApplyScrape(s1, u);
    }
  }

  /** Starting without an error or an ambiguity: a failure ends with that error; an
      ambiguity ends with the clarification message and nothing fetched; a location
      with an empty code ends with nothing set; otherwise the fetch runs, and its rows
      or its exception text end the run, or the missing-fields error when the
      blood-group code is missing. */
  lemma PipelineOutcome(init: AgentState, scorer: Scorer, source: FetchSource)
    requires !Present(init.error) && !HasAmbiguity(init)
    ensures var n := Normalize(init, scorer);
            var f := Pipeline(init, scorer, source);
            (n.Failed? ==> f.error == Some(n.error) && f.stockResults == init.stockResults) &&
            (n.Ambiguous? ==>
               f.error == Some(ClarificationText(n.candidates)) && f.stockResults == init.stockResults) &&
            (n.Located? && (n.stateCode == "" || n.districtCode == "") ==>
               f.error == init.error && f.stockResults == init.stockResults) &&
            (n.Located? && n.stateCode != "" && n.districtCode != "" && !Present(init.bgCode) ==>
               f.error == Some(MissingFieldsMessage)) &&
            (n.Located? && n.stateCode != "" && n.districtCode != "" && Present(init.bgCode) ==>
               match source(n.stateCode, n.districtCode, init.bgCode.value, init.bcCode)
               case Rows(rows) => f.stockResults == Some(rows) && f.error == init.error
               case Raised(m) => f.error == Some(m) && f.stockResults == init.stockResults)
  {
    RouteAfterNormalize(init, scorer);
  }
}
