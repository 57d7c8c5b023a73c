/** The run behind the "analyse" button: the merged candidate list goes through
    the analyzer one ticker at a time, results outside the price band or under
    the minimum score are dropped, the kept ones are stamped with their origin
    and risk, and the table shown is sorted by score. */
module BatchLoop {
  import opened Options
  import opened Guru
  import opened Candidates

  datatype Origin = Manual | Auto

  /** A kept result: the analysis dictionary plus the `Origen` and `Riesgo %` keys. */
  datatype Row = Row(analysis: Analysis, origin: Origin, riskPct: real)

  /** The sidebar filters. */
  datatype Criteria = Criteria(minPrice: real, maxPrice: real, minScore: int)

  /** What the loop body does with one ticker. `DivisionByZero` is a kept
      result with price 0, whose risk computation raises outside any `try`. */
  datatype Verdict = Dropped | Kept(row: Row) | DivisionByZero

  /** The loop either finishes with `valid_data` or is aborted by that exception. */
  datatype BatchOutcome = Completed(rows: seq<Row>) | Crashed(ticker: string)

  predicate Passes(a: Analysis, c: Criteria) {
    c.minPrice <= a.price <= c.maxPrice && a.score >= c.minScore
  }

  /** One iteration of the loop body for `ticker`. */
  function Judge(ticker: string, manual: seq<string>, market: string -> Option<Snapshot>, c: Criteria): (v: Verdict)
    ensures v.Dropped? <==> Analyze(ticker, market(ticker)).None? || !Passes(Analyze(ticker, market(ticker)).value, c)
    ensures v.DivisionByZero? <==>
              Analyze(ticker, market(ticker)).Some? && Passes(Analyze(ticker, market(ticker)).value, c)
              && Analyze(ticker, market(ticker)).value.price == 0.0
    ensures v.Kept? ==>
              && Analyze(ticker, market(ticker)) == Some(v.row.analysis)
              && v.row.analysis.ticker == ticker
              && Passes(v.row.analysis, c)
              && (v.row.origin == Manual <==> ticker in manual)
              && v.row.analysis.price != 0.0
              && v.row.riskPct == RiskPct(v.row.analysis.price, v.row.analysis.stopLoss)
  {
    match Analyze(ticker, market(ticker))
    case None => Dropped
    case Some(a) =>
      if !Passes(a, c) then Dropped
      else if a.price == 0.0 then DivisionByZero
      else Kept(Row(a, if ticker in manual then Manual else Auto, RiskPct(a.price, a.stopLoss)))
  }

  /** The loop over `tickers`, in order, as a function of its inputs. */
  function Batch(tickers: seq<string>, manual: seq<string>, market: string -> Option<Snapshot>, c: Criteria): BatchOutcome
  {
    if tickers == [] then Completed([])
    else
      var last := tickers[|tickers| - 1];
      match Batch(tickers[..|tickers| - 1], manual, market, c)
      case Crashed(t) => Crashed(t)
      case Completed(rows) =>
        match Judge(last, manual, market, c)
        case Dropped => Completed(rows)
        case Kept(row) => Completed(rows + [row])
        case DivisionByZero => Crashed(last)
  }

  /** The analysis loop: `for ticker in all_tickers`, appending kept results to
      `valid_data`. */
  method RunBatch(tickers: seq<string>, manual: seq<string>, market: string -> Option<Snapshot>, c: Criteria)
    returns (outcome: BatchOutcome)
    ensures outcome == Batch(tickers, manual, market, c)
  {
    var valid: seq<Row> := [];
    var i := 0;
    while i < |tickers|
      invariant 0 <= i <= |tickers|
      invariant Batch(tickers[..i], manual, market, c) == Completed(valid)
    {
      var ticker := tickers[i];
      assert tickers[..i + 1][..i] == tickers[..i];
      var data := Analyze(ticker, market(ticker));
      if data.Some? {
        var a := data.value;
        if c.minPrice <= a.price <= c.maxPrice {
          if a.score >= c.minScore {
            var origin := if ticker in manual then Manual else Auto;
            if a.price == 0.0 {
              CrashIsFinal(tickers, manual, market, c, i + 1);
              return Crashed(ticker);
            }
            var risk := RiskPct(a.price, a.stopLoss);
            valid := valid + [Row(a, origin, risk)];
          }
        }
      }
      i := i + 1;
    }
    assert tickers[..i] == tickers;
    outcome := Completed(valid);
  }

  // ---------------------------------------------------------------------------
  // What the loop promises

  function Tickers(rows: seq<Row>): seq<string> {
    seq(|rows|, i requires 0 <= i < |rows| => rows[i].analysis.ticker)
  }

  /** `a` is `b` with some elements deleted, the rest in their order. */
  predicate IsSubsequence(a: seq<string>, b: seq<string>)
    decreases |b|
  {
    if a == [] then true
    else if b == [] then false
    else if a[|a| - 1] == b[|b| - 1] then IsSubsequence(a[..|a| - 1], b[..|b| - 1])
    else IsSubsequence(a, b[..|b| - 1])
  }

  lemma {:induction false} SubsequenceExtend(a: seq<string>, b: seq<string>, x: string)
    requires IsSubsequence(a, b)
    ensures IsSubsequence(a, b + [x])
    decreases |a| + |b|, 1
  {
    var b' := b + [x];
    assert b'[..|b'| - 1] == b;
    if a != [] && a[|a| - 1] == x {
      SubsequenceDropLast(a, b);
    }
  }

  lemma {:induction false} SubsequenceDropLast(a: seq<string>, b: seq<string>)
    requires a != [] && IsSubsequence(a, b)
    ensures IsSubsequence(a[..|a| - 1], b)
    decreases |a| + |b|, 0
  {
    var a', b' := a[..|a| - 1], b[..|b| - 1];
    if a[|a| - 1] == b[|b| - 1] {
      SubsequenceExtend(a', b', b[|b| - 1]);
    } else {
      SubsequenceDropLast(a, b');
      SubsequenceExtend(a', b', b[|b| - 1]);
    }
    assert b' + [b[|b| - 1]] == b;
  }

  /** Every kept row came from a non-None analysis of a ticker of the batch,
      passed the filters, and carries the origin and risk the loop stamps. */
  lemma {:induction false} BatchSound(tickers: seq<string>, manual: seq<string>, market: string -> Option<Snapshot>, c: Criteria)
    ensures Batch(tickers, manual, market, c).Completed? ==>
            forall r :: r in Batch(tickers, manual, market, c).rows ==>
              && r.analysis.ticker in tickers
              && Judge(r.analysis.ticker, manual, market, c) == Kept(r)
              && Analyze(r.analysis.ticker, market(r.analysis.ticker)) == Some(r.analysis)
              && c.minPrice <= r.analysis.price <= c.maxPrice
              && r.analysis.score >= c.minScore
              && (r.origin == Manual <==> r.analysis.ticker in manual)
  {
    if tickers != [] {
      var init := tickers[..|tickers| - 1];
      BatchSound(init, manual, market, c);
    }
  }

  /** The "Riesgo %" of a kept row is a percentage in [0, 100) whenever its ATR
      is non-negative and its price is at or above the stop floor. */
  lemma BatchRiskBounds(tickers: seq<string>, manual: seq<string>, market: string -> Option<Snapshot>, c: Criteria)
    ensures Batch(tickers, manual, market, c).Completed? ==>
            forall r :: r in Batch(tickers, manual, market, c).rows ==>
              r.analysis.atr >= 0.0 && r.analysis.price >= StopFloor ==> 0.0 <= r.riskPct < 100.0
  {
    if Batch(tickers, manual, market, c).Completed? {
      BatchSound(tickers, manual, market, c);
      forall r | r in Batch(tickers, manual, market, c).rows && r.analysis.atr >= 0.0 && r.analysis.price >= StopFloor
        ensures 0.0 <= r.riskPct < 100.0
      {
        assert r.analysis.stopLoss == StopLoss(r.analysis.price, r.analysis.atr);
        RiskBounds(r.analysis.price, r.analysis.atr);
      }
    }
  }

  /** No ticker whose analysis passes the filters is left out, and none of them
      hit the division by zero. */
  lemma {:induction false} BatchComplete(tickers: seq<string>, manual: seq<string>, market: string -> Option<Snapshot>, c: Criteria)
    ensures Batch(tickers, manual, market, c).Completed? ==>
            forall k :: 0 <= k < |tickers| ==>
              !Judge(tickers[k], manual, market, c).DivisionByZero?
              && (Judge(tickers[k], manual, market, c).Kept? ==>
                    Judge(tickers[k], manual, market, c).row in Batch(tickers, manual, market, c).rows)
  {
    if tickers != [] {
      var init := tickers[..|tickers| - 1];
      BatchComplete(init, manual, market, c);
      forall k | 0 <= k < |init| ensures tickers[k] == init[k] { }
    }
  }

  lemma TickersAppend(rows: seq<Row>, row: Row)
    ensures Tickers(rows + [row]) == Tickers(rows) + [row.analysis.ticker]
  {
    assert Tickers(rows + [row])[..|rows|] == Tickers(rows);
  }

  /** The rows keep the tickers' encounter order. */
  lemma {:induction false} BatchOrder(tickers: seq<string>, manual: seq<string>, market: string -> Option<Snapshot>, c: Criteria)
    ensures Batch(tickers, manual, market, c).Completed? ==>
            IsSubsequence(Tickers(Batch(tickers, manual, market, c).rows), tickers)
  {
    if tickers != [] && Batch(tickers, manual, market, c).Completed? {
      var init, last := tickers[..|tickers| - 1], tickers[|tickers| - 1];
      BatchOrder(init, manual, market, c);
      var rows := Batch(init, manual, market, c).rows;
      var v := Judge(last, manual, market, c);
      if v.Kept? {
        TickersAppend(rows, v.row);
        var ts := Tickers(rows) + [last];
        assert ts[..|ts| - 1] == Tickers(rows);
        assert IsSubsequence(ts, tickers);
      } else {
        SubsequenceExtend(Tickers(rows), init, last);
        assert init + [last] == tickers;
      }
    }
  }

  /** A batch without duplicate tickers gives at most one row per ticker. */
  lemma {:induction false} BatchOnePerTicker(tickers: seq<string>, manual: seq<string>, market: string -> Option<Snapshot>, c: Criteria)
    requires NoDuplicates(tickers)
    ensures Batch(tickers, manual, market, c).Completed? ==>
            NoDuplicates(Tickers(Batch(tickers, manual, market, c).rows))
  {
    if tickers != [] && Batch(tickers, manual, market, c).Completed? {
      var init, last := tickers[..|tickers| - 1], tickers[|tickers| - 1];
      assert NoDuplicates(init) by {
        forall k | 0 <= k < |init| ensures init[k] == tickers[k] { }
      }
      BatchOnePerTicker(init, manual, market, c);
      var rows := Batch(init, manual, market, c).rows;
      var v := Judge(last, manual, market, c);
      if v.Kept? {
        assert last !in init by {
          forall k | 0 <= k < |init| ensures init[k] != last {
            assert init[k] == tickers[k];
          }
        }
        forall i | 0 <= i < |rows| ensures Tickers(rows)[i] != last {
          BatchTickersIn(init, manual, market, c, i);
        }
        TickersAppend(rows, v.row);
      }
    }
  }

  lemma {:induction false} BatchTickersIn(tickers: seq<string>, manual: seq<string>, market: string -> Option<Snapshot>, c: Criteria, i: nat)
    requires Batch(tickers, manual, market, c).Completed?
    requires i < |Batch(tickers, manual, market, c).rows|
    ensures Batch(tickers, manual, market, c).rows[i].analysis.ticker in tickers
  {
    var init := tickers[..|tickers| - 1];
    var rows := Batch(init, manual, market, c).rows;
    if i < |rows| {
      BatchTickersIn(init, manual, market, c, i);
    }
  }

  /** Once the loop has been aborted, later tickers change nothing. */
  lemma {:induction false} CrashIsFinal(tickers: seq<string>, manual: seq<string>, market: string -> Option<Snapshot>, c: Criteria, i: nat)
    requires i <= |tickers|
    requires Batch(tickers[..i], manual, market, c).Crashed?
    ensures Batch(tickers, manual, market, c) == Batch(tickers[..i], manual, market, c)
    decreases |tickers| - i
  {
    if i == |tickers| {
      assert tickers[..i] == tickers;
    } else {
      var init := tickers[..|tickers| - 1];
      assert init[..i] == tickers[..i];
      CrashIsFinal(init, manual, market, c, i);
    }
  }

  /** The loop is aborted exactly by a kept result priced 0 (which needs a
      minimum price of 0 or less). */
  lemma {:induction false} BatchCrash(tickers: seq<string>, manual: seq<string>, market: string -> Option<Snapshot>, c: Criteria)
    requires Batch(tickers, manual, market, c).Crashed?
    ensures var t := Batch(tickers, manual, market, c).ticker;
              t in tickers && Judge(t, manual, market, c) == DivisionByZero
              && Analyze(t, market(t)).value.price == 0.0 && c.minPrice <= 0.0 <= c.maxPrice
  {
    if tickers != [] {
      var init := tickers[..|tickers| - 1];
      if Batch(init, manual, market, c).Crashed? {
        BatchCrash(init, manual, market, c);
      }
    }
  }
}
