/** Candidate sourcing (`get_raw_candidates`) and the merge with the manual list:
    symbols are collected from the screener replies, kept only when purely
    alphabetic, and deduplicated. */
module Candidates {
  import opened Options
  import opened Ascii

  /** One element of a reply's `quotes` list. `Quote(None)` is an entry whose
      `symbol` is missing or falsy; `Malformed` is an entry whose inspection
      raises, which ends the processing of that reply. */
  datatype QuoteEntry = Quote(symbol: Option<string>) | Malformed

  /** What one screener endpoint gave back. `Failed` covers a request or JSON
      error and a payload without `finance.result` (both contribute nothing). */
  datatype Response = Failed | Quotes(entries: seq<QuoteEntry>)

  predicate NoDuplicates<T(==)>(s: seq<T>) {
    forall i, j :: 0 <= i < j < |s| ==> s[i] != s[j]
  }

  // ---------------------------------------------------------------------------
  // What the loops of get_raw_candidates append

  /** The symbol one entry contributes: `if symbol and symbol.isalpha()`. */
  function Accepted(e: QuoteEntry): seq<string> {
    if e.Quote? && e.symbol.Some? && IsAlpha(e.symbol.value) then [e.symbol.value] else []
  }

  function AcceptedAll(es: seq<QuoteEntry>): seq<string> {
    if es == [] then [] else AcceptedAll(es[..|es| - 1]) + Accepted(es[|es| - 1])
  }

  /** The index of the first malformed entry, or the length when there is none. */
  function FirstMalformed(es: seq<QuoteEntry>): (n: nat)
    ensures n <= |es|
    ensures forall k :: 0 <= k < n ==> es[k].Quote?
    ensures n < |es| ==> es[n].Malformed?
  {
    if es == [] || es[0].Malformed? then 0 else 1 + FirstMalformed(es[1..])
  }

  function EndpointSymbols(r: Response): seq<string> {
    if r.Failed? then [] else AcceptedAll(r.entries[..FirstMalformed(r.entries)])
  }

  /** The `candidates` list once every endpoint has been tried, in order. */
  function Collected(rs: seq<Response>): seq<string> {
    if rs == [] then [] else Collected(rs[..|rs| - 1]) + EndpointSymbols(rs[|rs| - 1])
  }

  /** `s` is listed by some reply ahead of that reply's first malformed entry. */
  predicate Listed(rs: seq<Response>, s: string) {
    exists i, k :: 0 <= i < |rs| && rs[i].Quotes? && 0 <= k < FirstMalformed(rs[i].entries)
                   && rs[i].entries[k] == Quote(Some(s))
  }

  lemma {:induction false} AcceptedAllMembers(es: seq<QuoteEntry>, s: string)
    ensures s in AcceptedAll(es) <==>
              IsAlpha(s) && exists k :: 0 <= k < |es| && es[k] == Quote(Some(s))
  {
    if es != [] {
      var n := |es|;
      AcceptedAllMembers(es[..n - 1], s);
      if IsAlpha(s) && (exists k :: 0 <= k < n && es[k] == Quote(Some(s))) {
        var k :| 0 <= k < n && es[k] == Quote(Some(s));
        if k < n - 1 {
          assert es[..n - 1][k] == es[k];
        }
      }
      if s in AcceptedAll(es[..n - 1]) {
        var k :| 0 <= k < n - 1 && es[..n - 1][k] == Quote(Some(s));
        assert es[k] == Quote(Some(s));
      }
    }
  }

  /** The reference characterisation of the collected list: a symbol is in it
      exactly when it is alphabetic and some reply lists it before that
      reply's first malformed entry. */
  lemma {:induction false} CollectedMembers(rs: seq<Response>, s: string)
    ensures s in Collected(rs) <==> IsAlpha(s) && Listed(rs, s)
  {
    if rs != [] {
      var n := |rs|;
      var init, r := rs[..n - 1], rs[n - 1];
      CollectedMembers(init, s);
      assert Collected(rs) == Collected(init) + EndpointSymbols(r);
      if r.Quotes? {
        var m := FirstMalformed(r.entries);
        AcceptedAllMembers(r.entries[..m], s);
        if s in EndpointSymbols(r) {
          var k :| 0 <= k < m && r.entries[..m][k] == Quote(Some(s));
          assert rs[n - 1].entries[k] == Quote(Some(s));
        }
      }
      if Listed(init, s) {
        var i, k :| 0 <= i < |init| && init[i].Quotes? && 0 <= k < FirstMalformed(init[i].entries)
                    && init[i].entries[k] == Quote(Some(s));
        assert rs[i] == init[i];
      }
      if Listed(rs, s) {
        var i, k :| 0 <= i < n && rs[i].Quotes? && 0 <= k < FirstMalformed(rs[i].entries)
                    && rs[i].entries[k] == Quote(Some(s));
        if i < n - 1 {
          assert init[i] == rs[i];
        } else {
          assert r.entries[..FirstMalformed(r.entries)][k] == Quote(Some(s));
        }
      }
    }
  }

  // ---------------------------------------------------------------------------
  // Deduplication

  /** `list(set(s))`. Python leaves the order unspecified; this keeps first
      occurrences, and only membership and the absence of duplicates are claimed. */
  function Dedup(s: seq<string>): (r: seq<string>)
    ensures NoDuplicates(r)
    ensures forall x :: x in r <==> x in s
  {
    if s == [] then []
    else
      var d := Dedup(s[..|s| - 1]);
      assert s == s[..|s| - 1] + [s[|s| - 1]];
      if s[|s| - 1] in d then d else d + [s[|s| - 1]]
  }

  /** `get_raw_candidates`: walks the replies of the screener endpoints in order,
      appending every alphabetic symbol, and returns them deduplicated. */
  method GetRawCandidates(responses: seq<Response>) returns (symbols: seq<string>)
    ensures symbols == Dedup(Collected(responses))
    ensures NoDuplicates(symbols)
    ensures forall s :: s in symbols <==> IsAlpha(s) && Listed(responses, s)
  {
    var candidates: seq<string> := [];
    var i := 0;
    while i < |responses|
      invariant 0 <= i <= |responses|
      invariant candidates == Collected(responses[..i])
    {
      var r := responses[i];
      if r.Quotes? {
        var j := 0;
        while j < |r.entries| && r.entries[j].Quote?
          invariant 0 <= j <= FirstMalformed(r.entries)
          invariant candidates == Collected(responses[..i]) + AcceptedAll(r.entries[..j])
        {
          var symbol := r.entries[j].symbol;
          if symbol.Some? && IsAlpha(symbol.value) {
            candidates := candidates + [symbol.value];
          }
          assert r.entries[..j + 1][..j] == r.entries[..j];
          j := j + 1;
        }
        assert j == FirstMalformed(r.entries);
      }
      assert responses[..i + 1][..i] == responses[..i];
      i := i + 1;
    }
    assert responses[..i] == responses;
    symbols := Dedup(candidates);
    forall s ensures s in symbols <==> IsAlpha(s) && Listed(responses, s) {
      CollectedMembers(responses, s);
    }
  }

  /** `list(set(market_candidates + manual_candidates))`. */
  function Merge(api: seq<string>, manual: seq<string>): (all: seq<string>)
    ensures NoDuplicates(all)
    ensures forall x :: x in all <==> x in api || x in manual
  {
    Dedup(api + manual)
  }
}
