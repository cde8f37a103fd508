/** The best-match wrapper of utils.py: score every name of a code -> name dictionary
    against the query and return the best name, its code and its score. The scorer
    (thefuzz's token_sort_ratio) is a parameter: any total function into 0..100. */
module Fuzzy {
  import opened Collections

  /** A similarity score as token_sort_ratio reports it. */
  type Score = x: int | 0 <= x <= 100

  type Scorer = (string, string) -> Score

  /** The (code, name, score) triple; code and name are None when there was nothing to match. */
  datatype Match = Match(code: Option<string>, name: Option<string>, score: Score)

  function ScoresOf(query: string, choices: seq<string>, scorer: Scorer): seq<int> {
    seq(|choices|, i requires 0 <= i < |choices| => scorer(query, choices[i]))
  }

  /** `process.extractOne(query, choices, scorer)`: the first highest-scoring choice with
      its score, or None when there are no choices. */
  function ExtractOne(query: string, choices: seq<string>, scorer: Scorer): (r: Option<(string, Score)>)
    ensures r.None? <==> choices == []
    ensures r.Some? ==> r.value.1 == scorer(query, r.value.0)
    ensures r.Some? ==> forall j :: 0 <= j < |choices| ==> scorer(query, choices[j]) <= r.value.1
    ensures r.Some? ==>
              exists k :: 0 <= k < |choices| && choices[k] == r.value.0 &&
                          forall j :: 0 <= j < k ==> scorer(query, choices[j]) < r.value.1
  {
    if choices == [] then None
    else
      var scores := ScoresOf(query, choices, scorer);
      var k := ArgMaxFirst(scores);
      assert forall j :: 0 <= j < |choices| ==> scores[j] == scorer(query, choices[j]);
      Some((choices[k], scorer(query, choices[k])))
  }

  /** `fuzzy_match_state(query, d)` and `fuzzy_match_district(query, d)`, whose bodies are
      the same: reverse the dictionary, extract the best name, and look its code up. */
  function FuzzyMatch(query: string, d: Dict<string>, scorer: Scorer): (r: Match)
    ensures d == [] ==> r == Match(None, None, 0)
    ensures d != [] ==> r.code.Some? && r.name.Some?
  {
    var nameToId := Invert(d);
    var choices := Values(d);
    match ExtractOne(query, choices, scorer)
    case None => Match(None, None, 0)
    case Some((name, score)) =>
      InvertLastWins(d, name);
      Match(Some(Lookup(nameToId, name).value), Some(name), score)
  }

  /** An empty dictionary gives (None, None, 0). Otherwise the name is the first name of
      highest score, the score is that name's, no name of the dictionary scores more,
      and the code is the last code carrying that name, so the code maps to the name. */
  lemma FuzzyMatchSpec(query: string, d: Dict<string>, scorer: Scorer)
    ensures var r := FuzzyMatch(query, d, scorer);
            (d == [] ==> r == Match(None, None, 0)) &&
            (forall i :: 0 <= i < |d| ==> scorer(query, d[i].1) <= r.score) &&
            (d != [] ==>
               r.code.Some? && r.name.Some? &&
               Lookup(d, r.code.value) == Some(r.name.value) &&
               r.score == scorer(query, r.name.value) &&
               (exists i :: 0 <= i < |d| && d[i] == (r.code.value, r.name.value) &&
                            forall j :: i < j < |d| ==> d[j].1 != r.name.value) &&
               (exists k :: 0 <= k < |d| && d[k].1 == r.name.value &&
                            forall j :: 0 <= j < k ==> scorer(query, d[j].1) < r.score))
  {
    if d != [] {
      FuzzyMatchCode(query, d, scorer);
      FuzzyMatchScore(query, d, scorer);
    } else {
      assert Values(d) == [];
    }
  }

  /** The code of a match is the last code carrying the matched name. */
  lemma FuzzyMatchCode(query: string, d: Dict<string>, scorer: Scorer)
    requires d != []
    ensures var r := FuzzyMatch(query, d, scorer);
            Lookup(d, r.code.value) == Some(r.name.value) &&
            exists i :: 0 <= i < |d| && d[i] == (r.code.value, r.name.value) &&
                        forall j :: i < j < |d| ==> d[j].1 != r.name.value
  {
    var name := ExtractOne(query, Values(d), scorer).value.0;
    InvertLastWins(d, name);
    var code := Lookup(Invert(d), name).value;
    assert FuzzyMatch(query, d, scorer).code == Some(code);
    var i :| 0 <= i < |d| && d[i] == (code, name) && forall j :: i < j < |d| ==> d[j].1 != name;
    LookupFound(d, i);
  }

  /** The name of a match is the first name of highest score, and the score is its score. */
  lemma FuzzyMatchScore(query: string, d: Dict<string>, scorer: Scorer)
    requires d != []
    ensures var r := FuzzyMatch(query, d, scorer);
            r.score == scorer(query, r.name.value) &&
            (forall i :: 0 <= i < |d| ==> scorer(query, d[i].1) <= r.score) &&
            exists k :: 0 <= k < |d| && d[k].1 == r.name.value &&
                        forall j :: 0 <= j < k ==> scorer(query, d[j].1) < r.score
  {
    var choices := Values(d);
    var e := ExtractOne(query, choices, scorer).value;
    var r := FuzzyMatch(query, d, scorer);
    assert r.name == Some(e.0) && r.score == e.1;
    assert forall i :: 0 <= i < |d| ==> choices[i] == d[i].1;
    var k :| 0 <= k < |choices| && choices[k] == e.0 && forall j :: 0 <= j < k ==> scorer(query, choices[j]) < e.1;
    assert d[k].1 == e.0;
  }

  /** A name that scores 100 (an exact match, for token_sort_ratio) makes the match
      score 100, and the name returned also scores 100. */
  lemma PerfectNameWins(query: string, d: Dict<string>, scorer: Scorer, i: nat)
    requires i < |d| && scorer(query, d[i].1) == 100
    ensures FuzzyMatch(query, d, scorer).score == 100
    ensures scorer(query, FuzzyMatch(query, d, scorer).name.value) == 100
  {
    FuzzyMatchSpec(query, d, scorer);
  }
}
