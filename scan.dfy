/** The button handler without its widgets: candidates, manual list, merge,
    batch, and the sorted table or the warning. */
module Scanner {
  import opened Options
  import opened Guru
  import opened Candidates
  import opened ManualInput
  import opened BatchLoop
  import opened Ranking

  /** What the page ends up showing. */
  datatype Screen = Table(rows: seq<Row>) | NoMatches | Failure(ticker: string)

  /** The ticker list of one run: the API candidates merged with the manual ones. */
  function AllTickers(responses: seq<Response>, manualText: string): seq<string> {
    Merge(Dedup(Collected(responses)), ParseManual(manualText))
  }

  /** The button handler without its widgets: fetch candidates, parse the manual
      box, merge, run the batch, and show the sorted table or the warning. */
  method Scan(responses: seq<Response>, manualText: string, market: string -> Option<Snapshot>, c: Criteria)
    returns (screen: Screen)
    ensures var outcome := Batch(AllTickers(responses, manualText), ParseManual(manualText), market, c);
              && (screen.Failure? <==> outcome.Crashed?)
              && (screen.NoMatches? <==> outcome == Completed([]))
              && (screen.Table? ==>
                    && outcome.Completed?
                    && |screen.rows| > 0
                    && SortedByScore(screen.rows)
                    && multiset(screen.rows) == multiset(outcome.rows))
    ensures screen.Table? ==> forall r :: r in screen.rows ==>
              && r.analysis.ticker in AllTickers(responses, manualText)
              && c.minPrice <= r.analysis.price <= c.maxPrice
              && r.analysis.score >= c.minScore
              && (r.origin == Manual <==> r.analysis.ticker in ParseManual(manualText))
    ensures screen.Table? ==> forall r :: r in screen.rows ==>
              r.analysis.atr >= 0.0 && r.analysis.price >= StopFloor ==> 0.0 <= r.riskPct < 100.0
    ensures screen.Table? ==> NoDuplicates(Tickers(screen.rows))
    ensures AllTickers(responses, manualText) == [] ==> screen == NoMatches
  {
    var marketCandidates := GetRawCandidates(responses);
    var manualCandidates := ParseManual(manualText);
    var all := Merge(marketCandidates, manualCandidates);
    var outcome := RunBatch(all, manualCandidates, market, c);
    match outcome
    case Crashed(t) =>
      screen := Failure(t);
    case Completed(valid) =>
      if valid == [] {
        screen := NoMatches;
      } else {
        var table := SortByScore(valid);
        BatchSound(all, manualCandidates, market, c);
        BatchRiskBounds(all, manualCandidates, market, c);
        BatchOnePerTicker(all, manualCandidates, market, c);
        forall r | r in table ensures r in valid {
          assert r in multiset(table);
        }
        SortKeepsOnePerTicker(valid);
        screen := Table(table);
      }
  }
}
