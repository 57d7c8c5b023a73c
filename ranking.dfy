/** The ordering of the result table: `sort_values(by="Score", ascending=False)`. */
module Ranking {
  import opened Candidates
  import opened BatchLoop

  function ScoreOf(row: Row): int {
    row.analysis.score
  }

  /** Scores descend along the table. */
  predicate SortedByScore(rows: seq<Row>) {
    forall i, j :: 0 <= i < j < |rows| ==> ScoreOf(rows[i]) >= ScoreOf(rows[j])
  }

  /** Places `row` ahead of the first row it scores at least as high as. */
  function Insert(row: Row, rows: seq<Row>): seq<Row> {
    if rows == [] then [row]
    else if ScoreOf(row) >= ScoreOf(rows[0]) then [row] + rows
    else [rows[0]] + Insert(row, rows[1..])
  }

  /** Inserting adds exactly that row and loses none. */
  lemma {:induction false} InsertPermutes(row: Row, rows: seq<Row>)
    ensures multiset(Insert(row, rows)) == multiset(rows) + multiset{row}
  {
    if rows != [] && ScoreOf(row) < ScoreOf(rows[0]) {
      InsertPermutes(row, rows[1..]);
      assert rows == [rows[0]] + rows[1..];
    }
  }

  /** Every row of `rows` scores at most `bound`. */
  predicate ScoresAtMost(rows: seq<Row>, bound: int) {
    forall k :: 0 <= k < |rows| ==> ScoreOf(rows[k]) <= bound
  }

  lemma ScoresAtMostOfMultiset(rows: seq<Row>, bound: int)
    requires forall x :: x in multiset(rows) ==> ScoreOf(x) <= bound
    ensures ScoresAtMost(rows, bound)
  {
    forall k | 0 <= k < |rows| ensures ScoreOf(rows[k]) <= bound {
      assert rows[k] in multiset(rows);
    }
  }

  /** Inserting into a score-descending table keeps it descending. */
  lemma {:induction false} InsertSorted(row: Row, rows: seq<Row>)
    requires SortedByScore(rows)
    ensures SortedByScore(Insert(row, rows))
  {
    if rows != [] && ScoreOf(row) < ScoreOf(rows[0]) {
      var head, tail := rows[0], rows[1..];
      var rest := Insert(row, tail);
      InsertSorted(row, tail);
      InsertPermutes(row, tail);
      forall x | x in multiset(rest) ensures ScoreOf(x) <= ScoreOf(head) {
        if x != row {
          assert x in multiset(tail);
          var k :| 0 <= k < |tail| && tail[k] == x;
          assert rows[k + 1] == x;
        }
      }
      ScoresAtMostOfMultiset(rest, ScoreOf(head));
      assert Insert(row, rows) == [head] + rest;
    }
  }

  /** `sort_values(by="Score", ascending=False)`: an arrangement of the rows
      with scores descending. (The order among equal scores is not claimed.) */
  function SortByScore(rows: seq<Row>): (out: seq<Row>)
    ensures SortedByScore(out)
    ensures multiset(out) == multiset(rows)
  {
    if rows == [] then []
    else
      var rest := SortByScore(rows[1..]);
      InsertSorted(rows[0], rest);
      InsertPermutes(rows[0], rest);
      assert rows == [rows[0]] + rows[1..];
      Insert(rows[0], rest)
  }

  // ---------------------------------------------------------------------------
  // Sorting keeps one row per ticker

  lemma NoDuplicatesCons(a: string, s: seq<string>)
    ensures NoDuplicates([a] + s) <==> a !in s && NoDuplicates(s)
  {
    var t := [a] + s;
    assert forall k :: 0 <= k < |s| ==> t[k + 1] == s[k];
    if a in s {
      var k :| 0 <= k < |s| && s[k] == a;
      assert t[0] == t[k + 1];
    }
    if a !in s && NoDuplicates(s) {
      forall i, j | 0 <= i < j < |t| ensures t[i] != t[j] {
        assert t[j] == s[j - 1];
        if i > 0 { assert t[i] == s[i - 1]; }
      }
    }
  }

  lemma TickersCons(row: Row, rows: seq<Row>)
    ensures Tickers([row] + rows) == [row.analysis.ticker] + Tickers(rows)
  {
  }

  /** A row of `Insert(row, rows)` is `row` or a row of `rows`. */
  lemma InsertFrom(row: Row, rows: seq<Row>, x: Row)
    requires x in multiset(Insert(row, rows))
    ensures x == row || exists k :: 0 <= k < |rows| && rows[k] == x
  {
    InsertPermutes(row, rows);
    if x != row {
      assert x in multiset(rows);
      assert x in rows;
    }
  }

  /** Inserting a row whose ticker is new keeps one row per ticker. */
  lemma {:induction false} InsertDistinct(row: Row, rows: seq<Row>)
    requires NoDuplicates(Tickers(rows))
    requires row.analysis.ticker !in Tickers(rows)
    ensures NoDuplicates(Tickers(Insert(row, rows)))
  {
    if rows == [] {
    } else if ScoreOf(row) >= ScoreOf(rows[0]) {
      TickersCons(row, rows);
      NoDuplicatesCons(row.analysis.ticker, Tickers(rows));
    } else {
      var head, tail := rows[0], rows[1..];
      var rest := Insert(row, tail);
      assert rows == [head] + tail;
      TickersCons(head, tail);
      NoDuplicatesCons(head.analysis.ticker, Tickers(tail));
      InsertDistinct(row, tail);
      forall k | 0 <= k < |rest| ensures Tickers(rest)[k] != head.analysis.ticker {
        assert rest[k] in multiset(rest);
        InsertFrom(row, tail, rest[k]);
        if rest[k] != row {
          var m :| 0 <= m < |tail| && tail[m] == rest[k];
          assert Tickers(tail)[m] == rest[k].analysis.ticker;
        }
      }
      TickersCons(head, rest);
      NoDuplicatesCons(head.analysis.ticker, Tickers(rest));
      assert Insert(row, rows) == [head] + rest;
    }
  }

  /** Sorting a table with one row per ticker keeps one row per ticker. */
  lemma {:induction false} SortKeepsOnePerTicker(rows: seq<Row>)
    requires NoDuplicates(Tickers(rows))
    ensures NoDuplicates(Tickers(SortByScore(rows)))
  {
    if rows != [] {
      var tail := rows[1..];
      var rest := SortByScore(tail);
      assert rows == [rows[0]] + tail;
      TickersCons(rows[0], tail);
      NoDuplicatesCons(rows[0].analysis.ticker, Tickers(tail));
      SortKeepsOnePerTicker(tail);
      forall k | 0 <= k < |rest| ensures Tickers(rest)[k] != rows[0].analysis.ticker {
        assert rest[k] in multiset(rest);
        assert rest[k] in multiset(tail);
        var m :| 0 <= m < |tail| && tail[m] == rest[k];
        assert Tickers(tail)[m] == rest[k].analysis.ticker;
      }
      InsertDistinct(rows[0], rest);
    }
  }
}
