/** The tool logic of server.py: `_normalize_location`, a single-shot resolver that shares
    the pipeline's state tier but accepts the best district above 80 without a candidate
    list, and `_fetch_stock`, which maps blood-group and component text to codes, runs
    the pipeline and renders its final state as one of three replies. The hierarchy
    cache is a parameter. */
module Server {
  import opened Collections
  import opened Text
  import opened Models
  import opened Fuzzy
  import opened Scraping
  import opened Graph

  const DefaultComponent := "Packed Red Blood Cells"
  const LocationNotFound := "Location not found"
  const NoStockMessage := "No stock found."
  /** A best district score above this is accepted by the single-shot resolver. */
  const DistrictThreshold := 80

  // ---------------------------------------------------------------- _normalize_location

  /** The dictionary `_normalize_location` returns: a state, a district, or an error;
      confidences are scores written as decimal text. */
  datatype LocationReply =
    | StateReply(name: string, code: string, confidence: string)
    | DistrictReply(name: string, code: string, stateCode: string, stateName: Option<string>, confidence: string)
    | NotFoundReply(error: string, confidence: string)

  /** The district reply for the state dictionary `sid` -> `dm`, from its best match. */
  function DistrictReplyOf(q: string, sid: string, dm: Dict<string>, states: Dict<string>, scorer: Scorer)
    : LocationReply
    requires FuzzyMatch(q, dm, scorer).score > 0
  {
    var m := FuzzyMatch(q, dm, scorer);
    DistrictReply(m.name.value, m.code.value, sid, Lookup(states, sid), Decimal(m.score))
  }

  /** What `_normalize_location` computes: a state scoring above 80, else the first
      state's district of highest score when that score is above 80, else not-found
      with the higher of the two best scores. */
  function SingleShot(h: Hierarchy, q: string, scorer: Scorer): LocationReply {
    var sm := FuzzyMatch(q, h.states, scorer);
    if sm.score > StateThreshold then
      StateReply(sm.name.value, sm.code.value, Decimal(sm.score))
    else
      var scores := DistrictScores(q, h.districts, scorer);
      var best := MaxOr0(scores);
      if best > DistrictThreshold then
        var k := ArgMaxFirst(scores);
        DistrictReplyOf(q, h.districts[k].0, h.districts[k].1, h.states, scorer)
      else
        NotFoundReply(LocationNotFound, Decimal(if sm.score > best then sm.score else best))
  }

  /** The loop's running pair (best score, best result) after scanning `entries`. */
  ghost predicate KeepsBest(q: string, entries: seq<(string, Dict<string>)>, states: Dict<string>, scorer: Scorer,
                            bestScore: int, bestResult: Option<LocationReply>)
  {
    var scores := DistrictScores(q, entries, scorer);
    bestScore == MaxOr0(scores) &&
    (bestScore > 0 ==>
       var k := ArgMaxFirst(scores);
       bestResult == Some(DistrictReplyOf(q, entries[k].0, entries[k].1, states, scorer)))
  }

  /** Scanning one more state replaces the pair exactly when its best district scores
      strictly more. */
  lemma KeepsBestStep(q: string, entries: seq<(string, Dict<string>)>, states: Dict<string>, scorer: Scorer,
                      bestScore: int, bestResult: Option<LocationReply>)
    requires entries != []
    requires KeepsBest(q, entries[..|entries| - 1], states, scorer, bestScore, bestResult)
    ensures var e := entries[|entries| - 1];
            var m := FuzzyMatch(q, e.1, scorer);
            if m.score > bestScore then
              KeepsBest(q, entries, states, scorer, m.score, Some(DistrictReplyOf(q, e.0, e.1, states, scorer)))
            else
              KeepsBest(q, entries, states, scorer, bestScore, bestResult)
  {
    var p := entries[..|entries| - 1];
    var se := FuzzyMatch(q, entries[|entries| - 1].1, scorer).score;
    DistrictScoresSnoc(q, entries, scorer);
    var prior := DistrictScores(q, p, scorer);
    if prior != [] {
      ArgMaxFirstSnoc(prior, se);
      assert entries[ArgMaxFirst(prior)] == p[ArgMaxFirst(prior)];
    } else {
      assert DistrictScores(q, entries, scorer) == [se];
    }
  }

  /** `_normalize_location`: the state tier, then the district scan. */
  method NormalizeLocation(h: Hierarchy, q: string, scorer: Scorer) returns (reply: LocationReply)
    ensures reply == SingleShot(h, q, scorer)
  {
    var sm := FuzzyMatch(q, h.states, scorer);
    if sm.score > StateThreshold {
      return StateReply(sm.name.value, sm.code.value, Decimal(sm.score));
    }
    var bestScore, bestResult := ScanDistricts(q, h.districts, h.states, scorer);
    SingleShotFromLoop(h, q, scorer, bestScore, bestResult);
    if bestScore > DistrictThreshold {
      return bestResult.value;
    }
    return NotFoundReply(LocationNotFound, Decimal(if sm.score > bestScore then sm.score else bestScore));
  }

  /** The district loop of `_normalize_location`: keep the best district result,
      replaced only on a strictly greater score. */
  method ScanDistricts(q: string, districts: seq<(string, Dict<string>)>, states: Dict<string>, scorer: Scorer)
    returns (bestScore: int, bestResult: Option<LocationReply>)
    ensures KeepsBest(q, districts, states, scorer, bestScore, bestResult)
  {
    bestScore := 0;
    bestResult := None;
    var i := 0;
    while i < |districts|
      invariant 0 <= i <= |districts|
      invariant KeepsBest(q, districts[..i], states, scorer, bestScore, bestResult)
    {
      var sid := districts[i].0;
      var dm := districts[i].1;
      var m := FuzzyMatch(q, dm, scorer);
      assert districts[..i + 1][..i] == districts[..i];
      KeepsBestStep(q, districts[..i + 1], states, scorer, bestScore, bestResult);
      if m.score > bestScore {
        bestScore := m.score;
        bestResult := Some(DistrictReplyOf(q, sid, dm, states, scorer));
      }
      i := i + 1;
    }
    assert districts[..i] == districts;
  }

  /** Below the state tier, the single-shot reply is the loop's best result when its
      score is above 80, and not-found otherwise. */
  lemma SingleShotFromLoop(h: Hierarchy, q: string, scorer: Scorer, bestScore: int, bestResult: Option<LocationReply>)
    requires KeepsBest(q, h.districts, h.states, scorer, bestScore, bestResult)
    requires FuzzyMatch(q, h.states, scorer).score <= StateThreshold
    ensures var sm := FuzzyMatch(q, h.states, scorer);
            SingleShot(h, q, scorer) ==
            if bestScore > DistrictThreshold then bestResult.value
            else NotFoundReply(LocationNotFound, Decimal(if sm.score > bestScore then sm.score else bestScore))
  {
  }

  /** Every district name of every state scores at most the best district score. */
  lemma DistrictNamesBounded(q: string, entries: seq<(string, Dict<string>)>, scorer: Scorer)
    ensures forall i, j :: 0 <= i < |entries| && 0 <= j < |entries[i].1| ==>
              scorer(q, entries[i].1[j].1) <= MaxOr0(DistrictScores(q, entries, scorer))
  {
    var scores := DistrictScores(q, entries, scorer);
    forall i, j | 0 <= i < |entries| && 0 <= j < |entries[i].1|
      ensures scorer(q, entries[i].1[j].1) <= MaxOr0(scores)
    {
      FuzzyMatchSpec(q, entries[i].1, scorer);
      assert scores[i] <= scores[ArgMaxFirst(scores)];
    }
  }

  /** A state reply names a state of the dictionary, scoring above 80 with the
      confidence as its score, and no state name scores more. */
  lemma SingleShotState(h: Hierarchy, q: string, scorer: Scorer)
    ensures var r := SingleShot(h, q, scorer);
            r.StateReply? ==>
              Lookup(h.states, r.code) == Some(r.name) && scorer(q, r.name) > StateThreshold &&
              r.confidence == Decimal(scorer(q, r.name)) &&
              forall i :: 0 <= i < |h.states| ==> scorer(q, h.states[i].1) <= scorer(q, r.name)
  {
    FuzzyMatchSpec(q, h.states, scorer);
  }

  /** A district reply comes after every state name scored at most 80. It names a
      district of the owning state's dictionary and that state's name, scores above 80
      with the confidence as its score, and no district name of any state scores more. */
  lemma SingleShotDistrict(h: Hierarchy, q: string, scorer: Scorer)
    ensures var r := SingleShot(h, q, scorer);
            r.DistrictReply? ==>
              (forall i :: 0 <= i < |h.states| ==> scorer(q, h.states[i].1) <= StateThreshold) &&
              (exists k :: 0 <= k < |h.districts| && h.districts[k].0 == r.stateCode &&
                           Lookup(h.districts[k].1, r.code) == Some(r.name)) &&
              r.stateName == Lookup(h.states, r.stateCode) &&
              scorer(q, r.name) > DistrictThreshold && r.confidence == Decimal(scorer(q, r.name)) &&
              forall i, j :: 0 <= i < |h.districts| && 0 <= j < |h.districts[i].1| ==>
                scorer(q, h.districts[i].1[j].1) <= scorer(q, r.name)
  {
    var r := SingleShot(h, q, scorer);
    FuzzyMatchSpec(q, h.states, scorer);
    if r.DistrictReply? {
      TopDistrictReply(q, h, scorer);
    }
  }

  /** The reply built from the first state of highest district score names a district
      of that state and the state's name, with the confidence as its score, and no
      district name of any state scores more. */
  lemma TopDistrictReply(q: string, h: Hierarchy, scorer: Scorer)
    requires MaxOr0(DistrictScores(q, h.districts, scorer)) > 0
    ensures var k := ArgMaxFirst(DistrictScores(q, h.districts, scorer));
            var r := DistrictReplyOf(q, h.districts[k].0, h.districts[k].1, h.states, scorer);
            Lookup(h.districts[k].1, r.code) == Some(r.name) &&
            r.stateCode == h.districts[k].0 && r.stateName == Lookup(h.states, r.stateCode) &&
            scorer(q, r.name) == MaxOr0(DistrictScores(q, h.districts, scorer)) &&
            r.confidence == Decimal(scorer(q, r.name)) &&
            forall i, j :: 0 <= i < |h.districts| && 0 <= j < |h.districts[i].1| ==>
              scorer(q, h.districts[i].1[j].1) <= scorer(q, r.name)
  {
    var k := ArgMaxFirst(DistrictScores(q, h.districts, scorer));
    FuzzyMatchSpec(q, h.districts[k].1, scorer);
    DistrictNamesBounded(q, h.districts, scorer);
  }

  /** The highest score of any state or district name, or 0 when there are no names:
      what the not-found reply reports. */
  function TopScore(h: Hierarchy, q: string, scorer: Scorer): nat {
    var s := FuzzyMatch(q, h.states, scorer).score;
    var d := MaxOr0(DistrictScores(q, h.districts, scorer));
    if s > d then s else d
  }

  /** No name scores more than `TopScore`, and unless it is 0 some name scores exactly it. */
  lemma TopScoreIsMax(h: Hierarchy, q: string, scorer: Scorer)
    ensures var c := TopScore(h, q, scorer);
            (forall i :: 0 <= i < |h.states| ==> scorer(q, h.states[i].1) <= c) &&
            (forall i, j :: 0 <= i < |h.districts| && 0 <= j < |h.districts[i].1| ==>
               scorer(q, h.districts[i].1[j].1) <= c) &&
            (c == 0 ||
             (exists i :: 0 <= i < |h.states| && scorer(q, h.states[i].1) == c) ||
             (exists i, j :: 0 <= i < |h.districts| && 0 <= j < |h.districts[i].1| &&
                             scorer(q, h.districts[i].1[j].1) == c))
  {
    var sm := FuzzyMatch(q, h.states, scorer);
    var scores := DistrictScores(q, h.districts, scorer);
    var c := TopScore(h, q, scorer);
    FuzzyMatchSpec(q, h.states, scorer);
    DistrictNamesBounded(q, h.districts, scorer);
    if c != 0 {
      if sm.score > MaxOr0(scores) {
        var k :| 0 <= k < |h.states| && h.states[k].1 == sm.name.value &&
                 forall j :: 0 <= j < k ==> scorer(q, h.states[j].1) < sm.score;
        assert scorer(q, h.states[k].1) == c;
      } else {
        var i := ArgMaxFirst(scores);
        var m := FuzzyMatch(q, h.districts[i].1, scorer);
        FuzzyMatchSpec(q, h.districts[i].1, scorer);
        var j :| 0 <= j < |h.districts[i].1| && h.districts[i].1[j].1 == m.name.value &&
                 forall l :: 0 <= l < j ==> scorer(q, h.districts[i].1[l].1) < m.score;
        assert scorer(q, h.districts[i].1[j].1) == c;
      }
    }
  }

  /** Not-found means no state and no district name scores above 80, and its confidence
      is the top score of any name. */
  lemma SingleShotNotFound(h: Hierarchy, q: string, scorer: Scorer)
    ensures var r := SingleShot(h, q, scorer);
            r.NotFoundReply? ==>
              r.error == LocationNotFound && r.confidence == Decimal(TopScore(h, q, scorer)) &&
              TopScore(h, q, scorer) <= DistrictThreshold
  {
  }

  // ---------------------------------------------------------------- the two policies

  /** Both resolvers share the state tier: the single-shot resolver answers a state
      exactly when the pipeline resolves to that whole state without its district tier. */
  lemma SharedStateTier(st: AgentState, scorer: Scorer)
    requires HasInput(st)
    ensures var r := SingleShot(st.hierarchy, QueryText(st), scorer);
            (r.StateReply? ==> Normalize(st, scorer) == Located(r.code, Some(r.name), AllDistrictsCode, AllDistrictsName)) &&
            (!r.StateReply? ==> Normalize(st, scorer) == DistrictTier(QueryText(st), st.hierarchy, scorer))
  {
  }

  /** Below the state tier the policies part by the best district score: above 90 both
      pick the same district; in (80, 90] the single-shot resolver picks the district the
      pipeline only offers first among its candidates; in (60, 80] the pipeline asks for
      clarification where the single-shot resolver finds nothing; at 60 or less neither
      finds a location. */
  lemma DistrictTiersCompared(q: string, h: Hierarchy, scorer: Scorer)
    requires FuzzyMatch(q, h.states, scorer).score <= StateThreshold
    ensures var r := SingleShot(h, q, scorer);
            var n := DistrictTier(q, h, scorer);
            var best := MaxOr0(DistrictScores(q, h.districts, scorer));
            (best > AutoResolveThreshold ==>
               r.DistrictReply? && n == Located(r.stateCode, r.stateName, r.code, r.name)) &&
            (DistrictThreshold < best <= AutoResolveThreshold ==>
               r.DistrictReply? && n.Ambiguous? &&
               n.candidates[0] == Candidate(r.name, r.code, r.stateCode, r.stateName, best)) &&
            (CandidateThreshold < best <= DistrictThreshold ==> r.NotFoundReply? && n.Ambiguous?) &&
            (best <= CandidateThreshold ==> r.NotFoundReply? && n.Failed?)
  {
    var cs := CandidatesIn(q, h.districts, h.states, scorer);
    CandidatesTrackBest(q, h.districts, h.states, scorer);
    if cs != [] {
      BestCandidateIsTopDistrict(q, h, scorer);
    }
  }

  /** When there are candidates, the best one and the head of the sorted list are the
      best district of the first state of highest district score. */
  lemma BestCandidateIsTopDistrict(q: string, h: Hierarchy, scorer: Scorer)
    requires CandidatesIn(q, h.districts, h.states, scorer) != []
    ensures var cs := CandidatesIn(q, h.districts, h.states, scorer);
            var k := ArgMaxFirst(DistrictScores(q, h.districts, scorer));
            var m := FuzzyMatch(q, h.districts[k].1, scorer);
            m.name.Some? && m.code.Some? &&
            Best(cs) == Candidate(m.name.value, m.code.value, h.districts[k].0, Lookup(h.states, h.districts[k].0), m.score) &&
            Take(SortByScoreDesc(cs), MaxSuggestions)[0] == Best(cs)
  {
    var cs := CandidatesIn(q, h.districts, h.states, scorer);
    CandidatesTrackBest(q, h.districts, h.states, scorer);
    SortSpec(cs);
    SortHeadIsBest(cs);
  }

  // ---------------------------------------------------------------- attribute codes

  /** Either lower-cased text contains the other. */
  predicate Overlaps(query: string, name: string) {
    Contains(Lower(name), Lower(query)) || Contains(Lower(query), Lower(name))
  }

  /** The code of the first entry whose name overlaps the query. */
  function FirstMatchingCode(query: string, vocab: Dict<string>): Option<string> {
    if vocab == [] then None
    else if Overlaps(query, vocab[0].1) then Some(vocab[0].0)
    else FirstMatchingCode(query, vocab[1..])
  }

  /** No entry overlaps exactly when there is no match; a match is the code of an
      overlapping entry before which no entry overlaps. */
  lemma {:induction false} FirstMatchingCodeSpec(query: string, vocab: Dict<string>)
    ensures var r := FirstMatchingCode(query, vocab);
            (r.None? <==> forall i :: 0 <= i < |vocab| ==> !Overlaps(query, vocab[i].1)) &&
            (r.Some? ==> exists k :: 0 <= k < |vocab| && vocab[k].0 == r.value && Overlaps(query, vocab[k].1) &&
                                    forall j :: 0 <= j < k ==> !Overlaps(query, vocab[j].1))
  {
    if vocab != [] {
      var rest := vocab[1..];
      FirstMatchingCodeSpec(query, rest);
      if !Overlaps(query, vocab[0].1) {
        forall i | 1 <= i < |vocab| ensures vocab[i].1 == rest[i - 1].1 { }
        if FirstMatchingCode(query, rest).Some? {
          var k :| 0 <= k < |rest| && rest[k].0 == FirstMatchingCode(query, rest).value && Overlaps(query, rest[k].1) &&
                   forall j :: 0 <= j < k ==> !Overlaps(query, rest[j].1);
          assert vocab[k + 1] == rest[k];
        }
      }
    }
  }

  /** The resolved code: the first overlapping entry's code, or the text itself. */
  function AttributeCode(query: string, vocab: Dict<string>): string {
    match FirstMatchingCode(query, vocab)
    case Some(code) => code
    case None => query
  }

  /** The blood-group and blood-component resolution loop: scan the cached entries in
      order and stop at the first overlap; an empty cache or no overlap keeps the text. */
  method ResolveCode(query: string, vocab: Dict<string>) returns (code: string)
    ensures code == AttributeCode(query, vocab)
  {
    code := query;
    if vocab != [] {
      var i := 0;
      while i < |vocab|
        invariant 0 <= i <= |vocab|
        invariant FirstMatchingCode(query, vocab[i..]) == FirstMatchingCode(query, vocab)
      {
        assert vocab[i..][1..] == vocab[i + 1..];
        if Overlaps(query, vocab[i].1) {
          code := vocab[i].0;
          break;
        }
        i := i + 1;
      }
    }
  }

  /** An empty text is contained in every name, so an empty blood group takes the first
      cached group's code. */
  lemma EmptyTextTakesFirst(vocab: Dict<string>)
    requires vocab != []
    ensures AttributeCode("", vocab) == vocab[0].0
  {
    assert Lower("") == "";
    EmptyIsContained(Lower(vocab[0].1));
  }

  /** The component text after a missing component is replaced by the default. */
  function ComponentText(component: Option<string>): string {
    if component.Some? then component.value else DefaultComponent
  }

  /** The component code: resolved only for a non-empty text, else the text itself. */
  function ComponentCode(component: Option<string>, vocab: Dict<string>): string {
    var text := ComponentText(component);
    if text != "" then AttributeCode(text, vocab) else text
  }

  /** A missing component resolves as the default component would; an empty one is
      never resolved. */
  lemma ComponentDefaults(vocab: Dict<string>)
    ensures ComponentCode(None, vocab) == AttributeCode(DefaultComponent, vocab)
    ensures ComponentCode(Some(""), vocab) == ""
  {
  }

  // ---------------------------------------------------------------- _fetch_stock

  /** The pipeline's initial state: the query, the texts and their resolved codes. */
  function FetchState(location: string, group: string, component: Option<string>, h: Hierarchy): AgentState {
    AgentState(
      messages := [],
      locationQuery := Some(location),
      bloodGroupQuery := Some(group),
      bloodComponentQuery := Some(ComponentText(component)),
      stateCode := None,
      stateName := None,
      districtCode := None,
      districtName := None,
      bgCode := Some(AttributeCode(group, h.bloodGroups)),
      bcCode := Some(ComponentCode(component, h.bloodComponents)),
      ambiguity := None,
      stockResults := None,
      error := None,
      hierarchy := h)
  }

  /** The string `_fetch_stock` returns; the rows stand for their serialised form. */
  datatype FetchReply = ErrorReply(text: string) | StockReply(rows: seq<StockResult>) | NoStockReply

  /** An error in the final state wins, then non-empty stock rows, then "No stock found.". */
  function Render(final: AgentState): FetchReply {
    if Present(final.error) then ErrorReply("Error: " + final.error.value)
    else if final.stockResults.Some? && final.stockResults.value != [] then StockReply(final.stockResults.value)
    else NoStockReply
  }

  /** `_fetch_stock`: default the component, resolve both codes, run the pipeline and
      render its final state. */
  method FetchStock(location: string, group: string, component: Option<string>, h: Hierarchy,
                    scorer: Scorer, source: FetchSource) returns (reply: FetchReply)
    ensures reply == Render(Pipeline(FetchState(location, group, component, h), scorer, source))
  {
    var text := if component.None? then DefaultComponent else component.value;
    var bgCode := ResolveCode(group, h.bloodGroups);
    var bcCode := text;
    if text != "" {
      bcCode := ResolveCode(text, h.bloodComponents);
    }
    var init := AgentState([], Some(location), Some(group), Some(text), None, None, None, None,
                           Some(bgCode), Some(bcCode), None, None, None, h);
    assert init == FetchState(location, group, component, h);
    var final := RunPipeline(init, scorer, source);
    if Present(final.error) {
      return ErrorReply("Error: " + final.error.value);
    }
    if final.stockResults.Some? && final.stockResults.value != [] {
      return StockReply(final.stockResults.value);
    }
    return NoStockReply;
  }

  /** The reply for each way the pipeline can end: a failed or ambiguous location
      surfaces as an error, with the clarification message for an ambiguity; a located
      place with an empty code, an empty row list or an exception with an empty message
      gives "No stock found."; an empty blood-group code gives the missing-fields error. */
  lemma FetchReplies(location: string, group: string, component: Option<string>, h: Hierarchy,
                     scorer: Scorer, source: FetchSource)
    ensures var init := FetchState(location, group, component, h);
            var n := Normalize(init, scorer);
            var reply := Render(Pipeline(init, scorer, source));
            var bg := AttributeCode(group, h.bloodGroups);
            (n.Failed? ==> reply == ErrorReply("Error: " + n.error)) &&
            (n.Ambiguous? ==> reply == ErrorReply("Error: " + ClarificationText(n.candidates))) &&
            (n.Located? && (n.stateCode == "" || n.districtCode == "") ==> reply == NoStockReply) &&
            (n.Located? && n.stateCode != "" && n.districtCode != "" && bg == "" ==>
               reply == ErrorReply("Error: " + MissingFieldsMessage)) &&
            (n.Located? && n.stateCode != "" && n.districtCode != "" && bg != "" ==>
               match source(n.stateCode, n.districtCode, bg, Some(ComponentCode(component, h.bloodComponents)))
               case Rows(rows) => reply == (if rows == [] then NoStockReply else StockReply(rows))
               case Raised(m) => reply == (if m == "" then NoStockReply else ErrorReply("Error: " + m)))
  {
    var init := FetchState(location, group, component, h);
    PipelineOutcome(init, scorer, source);
    var n := Normalize(init, scorer);
    if n.Failed? {
      assert n.error != "" by { RouteAfterNormalize(init, scorer); }
    }
  }

  /** An empty location with no messages is reported as "No input provided". */
  lemma EmptyLocation(group: string, component: Option<string>, h: Hierarchy, scorer: Scorer, source: FetchSource)
    ensures Render(Pipeline(FetchState("", group, component, h), scorer, source)) == ErrorReply("Error: " + NoInputMessage)
  {
  }
}
