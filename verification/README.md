# E-RaktkoshMCP query resolution, in Dafny

This project models how the eRaktKosh agent turns free text into the codes the
eRaktKosh blood-bank site expects, and proves properties of that model. It covers
three parts of the agent:

- **The pipeline (graph.py).** `normalize_input` resolves a location with a two-tier,
  state-first policy:
  - a state scoring above 80 resolves to the whole state;
  - otherwise each state's best district above 60 becomes a candidate;
  - the best candidate is accepted above 90;
  - otherwise the top three candidates, stably sorted by score, are offered, or the
    query is reported as not found.

  `should_scrape` routes the result. `ask_clarification` renders an ambiguity.
  `scrape_stock` checks its fields and fetches the stock through a scraper session
  that it always stops.
- **The tool logic (server.py).**
  - `_normalize_location` is a separate single-shot policy. It shares the state tier,
    keeps only the best district overall and accepts it above 80.
  - `_fetch_stock` maps blood-group and component text to cached codes. The first
    entry where either lower-cased text contains the other wins; otherwise the text
    passes through. It then runs the pipeline and renders the final state as an
    error, the stock rows, or "No stock found.".
- **The best-match wrapper (utils.py).** `fuzzy_match_state` and
  `fuzzy_match_district` have the same body, so they are modelled once as
  `Fuzzy.FuzzyMatch`. It inverts a code-to-name dictionary (the last code wins),
  picks the first name of highest (integer) score, and returns (None, None, 0) for an empty
  dictionary.

Modelling choices:

- **Dictionaries** are sequences of (key, value) pairs with unique keys, in
  insertion order. Iteration order matters in three places: the first maximum wins,
  the first substring hit wins, and the last code wins in a reverse lookup.
- **The similarity scorer** (thefuzz's `token_sort_ratio`) is a parameter: any
  function from two strings into 0..100.
- **The remote site** is a parameter `FetchSource` that yields rows or an exception
  message.
- **The hierarchy cache** is a parameter. A key missing from the cache is modelled
  as an empty dictionary, which is what `.get(key, {})` yields.
- **Python truthiness** of an optional string is `Present`: present and non-empty.

Modules:

- `collections.dfy`: Option, dictionaries, the reverse dictionary, the first maximum.
- `text.dfy`: ASCII `lower()`, substring `in`, and `str(n)`.
- `models.dfy`: models.py.
- `fuzzy.dfy`: utils.py.
- `scraping.dfy`: the scraper session.
- `graph.dfy`: graph.py.
- `server.dfy`: server.py.

graph.py:62 keeps only each state's best district, through `fuzzy_match_district`,
so the candidate list holds at most one district per state.

## Model

| member | source | states |
|---|---|---|
| Collections.Lookup | graph.py:69 | `d.get(key)` is None exactly when no pair has that key |
| Collections.LookupFound | graph.py:69 | in a dictionary, the value found under a pair's key is that pair's value |
| Collections.Put | utils.py:23 | after `d[key] = value`, key maps to value and every other key maps as before |
| Collections.Invert | utils.py:23 | defines `{v: k for k, v in d.items()}` as assignments in iteration order; its property is stated by Collections.InvertLastWins |
| Collections.InvertLastWins | utils.py:23 | the reverse dictionary maps a name to the last code that carries it, and lacks the name exactly when no code carries it |
| Collections.ArgMaxFirst | graph.py:72-76 | a scan replacing its best only on a strictly greater value ends at a maximum with every earlier value strictly smaller |
| Collections.ArgMaxFirstSnoc | graph.py:72-76 | one more value moves the best exactly when it beats the best so far |
| Text.Lower | server.py:124 | defines `str.lower()` on ASCII letters; its use is stated by Server.FirstMatchingCodeSpec |
| Text.Contains | server.py:124 | defines the substring test `needle in hay`; its meaning is stated by Text.ContainsAt |
| Text.ContainsAt | server.py:124 | `needle in hay` holds exactly when needle occurs at some offset of hay |
| Text.EmptyIsContained | server.py:124 | the empty string is in every string |
| Text.Decimal | server.py:84 | defines `str(n)` for a non-negative score; its property is stated by Text.DecimalRoundTrip |
| Text.DecimalRoundTrip | server.py:84 | `str(n)` is a non-empty digit string without a leading zero that reads back as n |
| Models.FromCode | models.py:5-16 | a member found from a string has that string as its value |
| Models.CodesDistinct | models.py:5-16 | every member is found from its value, so the eleven values are pairwise distinct |
| Models.Group | models.py:6-15 | every antigen and Rh sign name a specific group, never the "all" sentinel |
| Models.AdjacentCodes | models.py:6-16 | each negative variant's code is its positive variant's plus one; "all" is the one non-numeric value |
| Scraping.Scraper.constructor | graph.py:110 | a new scraper session is not started |
| Scraping.Scraper.Start | graph.py:111 | starting opens the session and counts one start |
| Scraping.Scraper.FetchStock | graph.py:113 | a fetch on an open session yields the site's answer for the four codes |
| Scraping.Scraper.Stop | graph.py:118 | stopping closes the session and counts one stop |
| Fuzzy.ExtractOne | utils.py:29 | the library best match: None for no choices, else the first choice of highest score with its score |
| Fuzzy.FuzzyMatch | utils.py:31-34 | an empty dictionary gives (None, None, 0); any other gives a code and a name |
| Fuzzy.FuzzyMatchSpec | utils.py:18-48 | the name is the first of highest score, no name scores more, and the code maps to the name, being the last code carrying it |
| Fuzzy.FuzzyMatchCode | utils.py:23-33 | the returned code maps to the returned name and is the last code carrying it |
| Fuzzy.FuzzyMatchScore | utils.py:26-33 | the returned score is the returned name's score, no name scores more, and no earlier name scores as much |
| Fuzzy.PerfectNameWins | utils.py:29-33 | a name scoring 100 makes the match score 100, on a name scoring 100 |
| Graph.QueryText | graph.py:28-35 | defines the query used: the location query when non-empty, else the last message's text; Graph.NormalizeInput uses it |
| Graph.CandidatesIn | graph.py:57-71 | defines the candidate list in scan order; its properties are stated by Graph.CandidatesSound, Graph.CandidatesComplete and Graph.CandidatesTrackBest |
| Graph.Best | graph.py:72-76 | defines the candidate kept by the strictly-greater running best; its properties are stated by Graph.BestIsMax and Graph.BestSnoc |
| Graph.CandidateOf | graph.py:62-71 | a state yields a candidate exactly when its best district scores above 60; the candidate is that best district, with its name, code and score, the state's code and the state's name from the states dictionary |
| Graph.CandidatesInSnoc | graph.py:61-71 | scanning one more state appends its candidate, if any |
| Graph.BestIsMax | graph.py:72-76 | no candidate scores more than the best one |
| Graph.BestSnoc | graph.py:72-76 | a new candidate becomes the best only when it scores strictly more |
| Graph.CandidatesSound | graph.py:61-71 | every candidate scores above 60, carries its state's name, and comes from some state |
| Graph.CandidateAbove | graph.py:63 | every candidate scores above 60 |
| Graph.CandidatesComplete | graph.py:61-71 | every state whose best district scores above 60 contributes a candidate |
| Graph.TracksBestStep | graph.py:61-76 | the running best over one more state is still the first state of highest score |
| Graph.TracksBestFirst | graph.py:61-76 | the running best after the first state |
| Graph.TracksBestSkip | graph.py:61-76 | a state without a candidate leaves the running best as it was |
| Graph.TracksBestTake | graph.py:61-76 | a state with a candidate takes over the running best exactly when it scores more |
| Graph.CandidatesTrackBest | graph.py:61-76 | there are candidates exactly when the best district score is above 60, and the best candidate is the first state of highest district score |
| Graph.InsertByScore | graph.py:88 | defines inserting a candidate ahead of the first element scoring no more; its properties are stated by Graph.InsertSorted, Graph.InsertMultiset and Graph.InsertWithScore |
| Graph.SortByScoreDesc | graph.py:88 | defines `candidates.sort(key=score, reverse=True)`; its properties are stated by Graph.SortSpec and Graph.SortHeadIsBest |
| Graph.Take | graph.py:90 | `s[:n]` is a prefix of s |
| Graph.InsertMultiset | graph.py:88 | inserting into the sorted list adds exactly the inserted candidate |
| Graph.SortedTail | graph.py:88 | the tail of a descending list is descending and bounded by the head |
| Graph.ConsSorted | graph.py:88 | a head scoring at least every element of a descending list keeps it descending |
| Graph.InsertBounded | graph.py:88 | insertion keeps a common upper bound on the scores |
| Graph.InsertSorted | graph.py:88 | insertion keeps the list in descending order |
| Graph.WithScoreCons | graph.py:88 | the candidates of one score in a list with a head |
| Graph.InsertWithScore | graph.py:88 | an inserted candidate goes ahead of those of its own score |
| Graph.SortSpec | graph.py:88 | the sort is descending, a permutation, and keeps the order of equal scores (stable) |
| Graph.WithScoreHead | graph.py:88 | the first candidate of a score heads the candidates of that score |
| Graph.SortHeadIsBest | graph.py:88 | the sorted list starts with the best candidate |
| Graph.TakeMultiset | graph.py:90 | `s[:n]` holds no element more often than s |
| Graph.TakeOfSorted | graph.py:90 | the first n of a descending list stay descending and none dropped scores more than the last kept |
| Graph.TopThree | graph.py:86-90 | the first three of the sorted candidates: one to three of them, descending, headed by the best, a sub-multiset of the candidates, none left out scoring more than the last |
| Graph.RunningBestStep | graph.py:72-76 | the best-so-far variables follow a new candidate exactly when it scores strictly more |
| Graph.DistrictTier | graph.py:51-92 | defines the district tier: auto-resolve above 90, else the top three candidates, else not-found; its properties are stated by Graph.AmbiguityList and Graph.PerfectDistrictResolves |
| Graph.Normalize | graph.py:24-92 | defines what `normalize_input` returns; Graph.NormalizeInput is proved to compute it, and Graph.ExactStateResolves and Graph.ExactDistrictResolves state its tiers |
| Graph.Merge | graph.py:44-49 | defines writing the keys `normalize_input` returns into the state; used by Graph.RouteAfterNormalize |
| Graph.NormalizeInput | graph.py:24-92 | `normalize_input` computes `Normalize`: no input, the state tier, then auto-resolve, ambiguity or not-found |
| Graph.ExactStateResolves | graph.py:41-49 | a state name scoring 100 resolves to a whole state with district "-1" / "All Districts" whose name also scores 100: the first state name scoring 100, under the last code carrying that name |
| Graph.PerfectDistrictResolves | graph.py:61-84 | a district name scoring 100 makes the district tier resolve, to a district of score 100 in its owning state |
| Graph.ExactDistrictResolves | graph.py:41-84 | below the state threshold, a district name scoring 100 resolves, never to an ambiguity |
| Graph.AmbiguityList | graph.py:86-90 | an ambiguity lists one to three candidates above 60 and at most 90, each at most as often as it is a candidate, descending, headed by the best, none left out scoring more than the last listed |
| Graph.ShouldScrape | graph.py:129-136 | defines the router: an error ends the run, else an ambiguity goes to clarify, else both codes present go to scrape, else the run ends; its outcomes are stated by Graph.RouteAfterNormalize |
| Graph.RouteAfterNormalize | graph.py:129-136 | after normalising, a failure ends the run, an ambiguity goes to clarification, and a location is scraped exactly when both its codes are non-empty |
| Graph.ConcatAppend | graph.py:96-98 | concatenating two lists of lines is concatenating their texts |
| Graph.ClarifyLine | graph.py:98 | defines the f-string line `- {name} in {state_name}?` of one candidate, a missing state name printing "None"; its place in the message is stated by Graph.ClarifyLineAt |
| Graph.ClarifyLinesAppend | graph.py:96-98 | the lines for two candidate lists are the lines of each, in order |
| Graph.ClarifyLinesSnoc | graph.py:97-98 | one more candidate appends its line |
| Graph.ClarifyLineAt | graph.py:96-98 | each candidate's "- name in state?" line stands between the lines of those before and after it |
| Graph.ClarificationText | graph.py:94-99 | defines the clarification message, the header then one line per candidate; Graph.AskClarification is proved to compute it and Graph.ClarifyLineAt states its lines |
| Graph.AskClarification | graph.py:94-99 | the message is the header followed by one line per candidate, in order |
| Graph.HasFetchFields | graph.py:107 | defines the guard `s_code and d_code and bg_code`; its use is stated by Graph.ScrapeStock |
| Graph.ScrapeOutcome | graph.py:101-118 | defines what `scrape_stock` returns: the missing-fields error, the rows, or the exception text; Graph.ScrapeStock is proved to compute it |
| Graph.ScrapeStock | graph.py:101-118 | missing fields give the missing-fields error without a session; otherwise the rows or the exception text, from one fresh session started once and stopped once |
| Graph.ApplyScrape | graph.py:114-116 | defines writing the key `scrape_stock` returns, `stock_results` or `error`, into the state; used by Graph.Pipeline |
| Graph.Pipeline | graph.py:121-144 | defines the graph run: normalise, then end, clarify or scrape; Graph.RunPipeline is proved to compute it and Graph.PipelineOutcome states its results |
| Graph.RunPipeline | graph.py:120-146 | the graph run computes `Pipeline`: normalise, then end, clarify or scrape as `should_scrape` decides |
| Graph.PipelineOutcome | graph.py:129-144 | the final error and stock rows for each kind of normalisation result and fetch outcome |
| Server.SingleShot | server.py:73-107 | defines what `_normalize_location` returns; Server.NormalizeLocation is proved to compute it, and Server.SingleShotState, Server.SingleShotDistrict and Server.SingleShotNotFound state its replies |
| Server.NormalizeLocation | server.py:73-107 | `_normalize_location` computes `SingleShot`: the state tier, then the best district above 80, else not-found |
| Server.ScanDistricts | server.py:88-102 | the district loop ends holding the best district score and the reply for the first state reaching it |
| Server.DistrictReplyOf | server.py:95-102 | defines the district dictionary built from one state's best match, with `states.get(s_id)` and the score as text; Server.TopDistrictReply states which one is returned |
| Server.KeepsBestStep | server.py:91-102 | one more state replaces the best result exactly when it scores strictly more |
| Server.SingleShotFromLoop | server.py:104-107 | below the state tier, the reply is the loop's best above 80, else not-found with the higher best score |
| Server.DistrictNamesBounded | server.py:91-102 | no district name of any state scores more than the best district score |
| Server.SingleShotState | server.py:78-85 | a state reply names a state above 80 with its score as confidence, and no state scores more |
| Server.SingleShotDistrict | server.py:88-105 | a district reply follows a state tier at most 80, names a district of its owning state above 80 with its score as confidence, and no district scores more |
| Server.TopDistrictReply | server.py:91-105 | the reply for the first state of highest district score names that state's best district, with its score |
| Server.TopScoreIsMax | server.py:107 | the not-found confidence is the highest score of any state or district name, or 0 |
| Server.SingleShotNotFound | server.py:107 | not-found carries "Location not found" and the top score, which is at most 80 |
| Server.SharedStateTier | server.py:78-85 | both resolvers share the state tier: the single-shot state reply is the pipeline's whole-state result, and otherwise the pipeline uses its district tier |
| Server.DistrictTiersCompared | server.py:88-107 | the district tiers agree above 90; in (80, 90] the single-shot district is the pipeline's first candidate; in (60, 80] only the pipeline offers candidates; at most 60 neither finds a location |
| Server.BestCandidateIsTopDistrict | graph.py:72-90 | the best candidate and the head of the offered list are the best district of the first state of highest district score |
| Server.Overlaps | server.py:124 | defines the test that either lower-cased text is in the other; Server.FirstMatchingCodeSpec states where it picks |
| Server.FirstMatchingCode | server.py:122-126 | defines the code of the first cached entry whose lower-cased name contains, or is contained in, the lower-cased text; its property is stated by Server.FirstMatchingCodeSpec |
| Server.AttributeCode | server.py:115-126 | defines the resolved code: the first matching entry's code, else the text itself; Server.ResolveCode is proved to compute it |
| Server.ComponentText | server.py:112-113 | defines the component text, `blood_component` or the default when it is None; its cases are stated by Server.ComponentDefaults |
| Server.ComponentCode | server.py:112-133 | defines the component code: the default for a missing component, resolved only when non-empty; its cases are stated by Server.ComponentDefaults |
| Server.FirstMatchingCodeSpec | server.py:122-126 | no match exactly when no entry overlaps; a match is the code of the first overlapping entry |
| Server.ResolveCode | server.py:121-133 | the resolution loop yields the first overlapping entry's code, or the text itself |
| Server.EmptyTextTakesFirst | server.py:122-126 | an empty blood group resolves to the first cached group's code |
| Server.ComponentDefaults | server.py:112-133 | a missing component resolves as "Packed Red Blood Cells"; an empty one is never resolved |
| Server.FetchState | server.py:135-143 | defines the pipeline's initial state from the query, the texts and the resolved codes; used by Server.FetchStock and Server.FetchReplies |
| Server.Render | server.py:147-154 | defines the reply: an error first, then non-empty stock rows, then "No stock found."; its outcomes are stated by Server.FetchReplies |
| Server.FetchStock | server.py:109-154 | `_fetch_stock` renders the final pipeline state of the resolved query |
| Server.FetchReplies | server.py:147-154 | the reply for every outcome: errors and ambiguities as "Error: ...", empty rows or an empty exception text as "No stock found.", rows as rows |
| Server.EmptyLocation | server.py:135-148 | an empty location is reported as "Error: No input provided" |

## Left out

- scraper.py is not part of this model. Its Playwright automation, option filters and
  page cap are replaced by the `FetchSource` parameter. A failure of `scraper.start()`
  is not modelled. Neither is a failure of `scraper.stop()` in the `finally` of
  graph.py:117-118, whose exception would replace the result and propagate out of
  `_fetch_stock`: Graph.ScrapeStock always returns a result.
- thefuzz's `token_sort_ratio` is not part of this model. Facts about it, such as an
  exact match scoring 100, appear only as hypotheses of the lemmas that need them.
- File I/O in `save_hierarchy` and `load_hierarchy`, and the JSON serialisation of the
  cache and of the stock rows. `StockReply` stands for the serialised rows.
- The `lifespan` cache warming, the global scraper and cache, the Playwright install
  bootstrap, and the FastMCP resource and tool wrappers.
- The LangGraph wiring. `RunPipeline` dispatches through `ShouldScrape` instead.
  Messages are their text contents.
- Async suspension and concurrency. The try/finally of `scrape_stock` is modelled by
  ghost start and stop counters on the session.
- The constant "type" field of the reply and candidate dictionaries.
- Text.Lower: lower-cases ASCII letters only, because Python's full Unicode `lower()`
  is outside the model.
- Fuzzy.ExtractOne: ties are broken on the integer score, whereas thefuzz's
  `extractOne` (rapidfuzz backend) compares unrounded ratios and rounds only the
  winner's score. Two names with ratios 85.2 and then 85.4 give the second name in the
  library and the first in the model. The scorer here returns integers only.
- Fuzzy.FuzzyMatch: its own contract states only the empty and non-empty shapes, so
  that callers stay cheap to verify. The full behaviour is stated by
  Fuzzy.FuzzyMatchSpec.
