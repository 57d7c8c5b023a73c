/** Parsing of the manual ticker text box:
    `manual_input.replace(',', ' ').split()`, each token stripped and
    upper-cased, an empty box giving the empty list. */
module ManualInput {
  import opened Ascii

  /** A character that separates tickers: a comma or whitespace. */
  predicate IsSeparator(c: char) {
    c == ',' || IsSpace(c)
  }

  predicate NoSeparators(t: string) {
    forall k :: 0 <= k < |t| ==> !IsSeparator(t[k])
  }

  predicate NoSpaces(t: string) {
    forall k :: 0 <= k < |t| ==> !IsSpace(t[k])
  }

  predicate NoLower(t: string) {
    forall k :: 0 <= k < |t| ==> !IsLower(t[k])
  }

  /** `s.replace(',', ' ')`. */
  function CommasToSpaces(s: string): (r: string)
    ensures |r| == |s|
    ensures forall k :: 0 <= k < |r| ==> r[k] != ','
    ensures forall k :: 0 <= k < |s| && s[k] == ',' ==> r[k] == ' '
    ensures forall k :: 0 <= k < |s| && s[k] != ',' ==> r[k] == s[k]
  {
    seq(|s|, i requires 0 <= i < |s| => if s[i] == ',' then ' ' else s[i])
  }

  /** The length of the run of non-whitespace characters that starts `s`. */
  function WordLength(s: string): (n: nat)
    ensures n <= |s|
    ensures forall k :: 0 <= k < n ==> !IsSpace(s[k])
    ensures n < |s| ==> IsSpace(s[n])
    ensures s != [] && !IsSpace(s[0]) ==> n > 0
  {
    if s == [] || IsSpace(s[0]) then 0 else 1 + WordLength(s[1..])
  }

  /** `s.split()`: the maximal runs of non-whitespace characters, in order. */
  function Words(s: string): (ws: seq<string>)
    ensures forall k :: 0 <= k < |ws| ==> |ws[k]| > 0 && NoSpaces(ws[k])
    decreases |s|
  {
    if s == [] then []
    else if IsSpace(s[0]) then Words(s[1..])
    else
      var n := WordLength(s);
      [s[..n]] + Words(s[n..])
  }

  /** The manual candidate list. */
  function ParseManual(text: string): (tokens: seq<string>)
    ensures forall k :: 0 <= k < |tokens| ==> |tokens[k]| > 0 && NoSeparators(tokens[k]) && NoLower(tokens[k])
  {
    if text == "" then []
    else
      var ws := Words(CommasToSpaces(text));
      forall k | 0 <= k < |ws| ensures NoSeparators(Upper(ws[k])) {
        WordsHaveNoCommas(CommasToSpaces(text));
      }
      seq(|ws|, i requires 0 <= i < |ws| => Upper(ws[i]))
  }

  // ---------------------------------------------------------------------------
  // Contents: the tokens are the input with its separators taken out

  function Concat(ws: seq<string>): string {
    if ws == [] then "" else ws[0] + Concat(ws[1..])
  }

  function RemoveSpaces(s: string): string {
    if s == [] then "" else (if IsSpace(s[0]) then "" else [s[0]]) + RemoveSpaces(s[1..])
  }

  function RemoveSeparators(s: string): string {
    if s == [] then "" else (if IsSeparator(s[0]) then "" else [s[0]]) + RemoveSeparators(s[1..])
  }

  lemma {:induction false} WordsHaveNoCommas(s: string)
    requires forall k :: 0 <= k < |s| ==> s[k] != ','
    ensures forall j, k :: 0 <= j < |Words(s)| && 0 <= k < |Words(s)[j]| ==> Words(s)[j][k] != ','
    decreases |s|
  {
    if s != [] {
      if IsSpace(s[0]) {
        WordsHaveNoCommas(s[1..]);
      } else {
        var n := WordLength(s);
        WordsHaveNoCommas(s[n..]);
        assert Words(s) == [s[..n]] + Words(s[n..]);
      }
    }
  }

  lemma {:induction false} RemoveSpacesAppend(a: string, b: string)
    ensures RemoveSpaces(a + b) == RemoveSpaces(a) + RemoveSpaces(b)
  {
    if a == [] {
      assert a + b == b;
    } else {
      assert (a + b)[0] == a[0] && (a + b)[1..] == a[1..] + b;
      RemoveSpacesAppend(a[1..], b);
    }
  }

  lemma {:induction false} RemoveSpacesOfWord(t: string)
    requires NoSpaces(t)
    ensures RemoveSpaces(t) == t
  {
    if t != [] {
      RemoveSpacesOfWord(t[1..]);
    }
  }

  /** Joining the words gives back the input without its whitespace. */
  lemma {:induction false} WordsCoverInput(s: string)
    ensures Concat(Words(s)) == RemoveSpaces(s)
    decreases |s|
  {
    if s != [] {
      if IsSpace(s[0]) {
        WordsCoverInput(s[1..]);
      } else {
        var n := WordLength(s);
        WordsCoverInput(s[n..]);
        assert s == s[..n] + s[n..];
        RemoveSpacesAppend(s[..n], s[n..]);
        RemoveSpacesOfWord(s[..n]);
        assert Words(s) == [s[..n]] + Words(s[n..]);
      }
    }
  }

  lemma {:induction false} RemoveCommasThenSpaces(s: string)
    ensures RemoveSpaces(CommasToSpaces(s)) == RemoveSeparators(s)
  {
    if s != [] {
      assert CommasToSpaces(s)[1..] == CommasToSpaces(s[1..]);
      RemoveCommasThenSpaces(s[1..]);
    }
  }

  lemma {:induction false} ConcatUpper(ws: seq<string>)
    ensures Concat(seq(|ws|, i requires 0 <= i < |ws| => Upper(ws[i]))) == Upper(Concat(ws))
  {
    if ws != [] {
      var us := seq(|ws|, i requires 0 <= i < |ws| => Upper(ws[i]));
      var tail := ws[1..];
      assert us[1..] == seq(|tail|, i requires 0 <= i < |tail| => Upper(tail[i]));
      ConcatUpper(tail);
      assert Upper(ws[0] + Concat(tail)) == Upper(ws[0]) + Upper(Concat(tail));
    }
  }

  /** The manual tokens, joined, are the upper-cased input with every comma and
      whitespace character removed: nothing is lost, added or reordered. */
  lemma ParseManualContents(text: string)
    ensures Concat(ParseManual(text)) == Upper(RemoveSeparators(text))
  {
    if text != "" {
      var ws := Words(CommasToSpaces(text));
      WordsCoverInput(CommasToSpaces(text));
      RemoveCommasThenSpaces(text);
      ConcatUpper(ws);
    }
  }

  // ---------------------------------------------------------------------------
  // Round trip: tickers written out with separators parse back to themselves

  /** Every character of `s` is a comma or whitespace (`s` may be empty). */
  predicate AllSeparators(s: string) {
    forall k :: 0 <= k < |s| ==> IsSeparator(s[k])
  }

  predicate AllSpaces(s: string) {
    forall k :: 0 <= k < |s| ==> IsSpace(s[k])
  }

  /** The tickers written one after another, `seps[k]` between `ts[k]` and
      `ts[k + 1]`, nothing before the first or after the last. */
  function Join(ts: seq<string>, seps: seq<string>): string
    requires |ts| <= |seps| + 1
  {
    if ts == [] then ""
    else if |ts| == 1 then ts[0]
    else ts[0] + seps[0] + Join(ts[1..], seps[1..])
  }

  lemma JoinStartsWithFirst(ts: seq<string>, seps: seq<string>)
    requires |ts| <= |seps| + 1
    ensures ts != [] ==> |Join(ts, seps)| >= |ts[0]|
  {
    if |ts| > 1 {
      assert Join(ts, seps) == ts[0] + seps[0] + Join(ts[1..], seps[1..]);
    }
  }

  /** No gap is empty. */
  predicate GapsNonEmpty(seps: seq<string>) {
    forall k :: 0 <= k < |seps| ==> |seps[k]| > 0
  }

  lemma CommasToSpacesAppend(a: string, b: string)
    ensures CommasToSpaces(a + b) == CommasToSpaces(a) + CommasToSpaces(b)
  {
    assert forall k :: 0 <= k < |a| ==> (a + b)[k] == a[k];
    assert forall k :: |a| <= k < |a| + |b| ==> (a + b)[k] == b[k - |a|];
  }

  lemma CommasToSpacesOfSeparators(s: string)
    requires AllSeparators(s)
    ensures AllSpaces(CommasToSpaces(s)) && |CommasToSpaces(s)| == |s|
  {
  }

  function SpacedGaps(seps: seq<string>): (out: seq<string>)
    ensures |out| == |seps|
  {
    seq(|seps|, i requires 0 <= i < |seps| => CommasToSpaces(seps[i]))
  }

  lemma {:induction false} WordLengthOfPrefix(t: string, rest: string)
    requires NoSpaces(t)
    requires rest == [] || IsSpace(rest[0])
    ensures WordLength(t + rest) == |t|
  {
    if t != [] {
      assert (t + rest)[1..] == t[1..] + rest;
      WordLengthOfPrefix(t[1..], rest);
    }
  }

  lemma {:induction false} WordsSkipSpaces(sep: string, rest: string)
    requires AllSpaces(sep)
    ensures Words(sep + rest) == Words(rest)
  {
    if sep == [] {
      assert sep + rest == rest;
    } else {
      assert (sep + rest)[0] == sep[0] && (sep + rest)[1..] == sep[1..] + rest;
      WordsSkipSpaces(sep[1..], rest);
    }
  }

  /** A word followed by whitespace (or nothing) splits off as the first word. */
  lemma WordsOfWordThen(t: string, rest: string)
    requires |t| > 0 && NoSpaces(t)
    requires rest == [] || IsSpace(rest[0])
    ensures Words(t + rest) == [t] + Words(rest)
  {
    WordLengthOfPrefix(t, rest);
    assert (t + rest)[..|t|] == t;
    assert (t + rest)[|t|..] == rest;
  }

  lemma WordsOfSpaces(s: string)
    requires AllSpaces(s)
    ensures Words(s) == []
  {
    WordsSkipSpaces(s, "");
    assert s + "" == s;
  }

  /** Words written out with a non-empty run of whitespace in each gap and any
      run of whitespace after the last split back into exactly those words. */
  lemma {:induction false} WordsOfJoin(ts: seq<string>, seps: seq<string>, trail: string)
    requires |ts| <= |seps| + 1
    requires GapsNonEmpty(seps) && forall k :: 0 <= k < |seps| ==> AllSpaces(seps[k])
    requires AllSpaces(trail)
    requires forall j :: 0 <= j < |ts| ==> |ts[j]| > 0 && NoSpaces(ts[j])
    ensures Words(Join(ts, seps) + trail) == ts
  {
    if ts == [] {
      assert Join(ts, seps) + trail == trail;
      WordsOfSpaces(trail);
    } else if |ts| == 1 {
      assert Join(ts, seps) + trail == ts[0] + trail;
      WordsOfWordThen(ts[0], trail);
      WordsOfSpaces(trail);
    } else {
      var t, more := ts[0], Join(ts[1..], seps[1..]) + trail;
      var rest := seps[0] + more;
      assert Join(ts, seps) + trail == t + rest;
      WordsOfWordThen(t, rest);
      WordsSkipSpaces(seps[0], more);
      WordsOfJoin(ts[1..], seps[1..], trail);
      assert ts == [t] + ts[1..];
    }
  }

  lemma {:induction false} CommasToSpacesOfJoin(ts: seq<string>, seps: seq<string>)
    requires |ts| <= |seps| + 1
    requires forall j :: 0 <= j < |ts| ==> NoSeparators(ts[j])
    ensures CommasToSpaces(Join(ts, seps)) == Join(ts, SpacedGaps(seps))
  {
    if |ts| == 1 {
      assert CommasToSpaces(ts[0]) == ts[0];
    } else if |ts| > 1 {
      CommasToSpacesOfJoin(ts[1..], seps[1..]);
      assert SpacedGaps(seps)[1..] == SpacedGaps(seps[1..]);
      var t, j := ts[0], Join(ts[1..], seps[1..]);
      CommasToSpacesAppend(t + seps[0], j);
      CommasToSpacesAppend(t, seps[0]);
      assert CommasToSpaces(t) == t;
    }
  }

  /** Tickers written out with any non-empty run of commas and whitespace in
      each gap, and any run of them before the first and after the last, parse
      back to exactly that list, each ticker upper-cased. */
  lemma ParseManualRoundTrip(ts: seq<string>, seps: seq<string>, lead: string, trail: string)
    requires |ts| <= |seps| + 1
    requires GapsNonEmpty(seps) && forall k :: 0 <= k < |seps| ==> AllSeparators(seps[k])
    requires AllSeparators(lead) && AllSeparators(trail)
    requires forall j :: 0 <= j < |ts| ==> |ts[j]| > 0 && NoSeparators(ts[j])
    ensures ParseManual(lead + Join(ts, seps) + trail) == seq(|ts|, i requires 0 <= i < |ts| => Upper(ts[i]))
  {
    var body := Join(ts, seps);
    var text := lead + body + trail;
    JoinStartsWithFirst(ts, seps);
    if text != "" {
      var gaps := SpacedGaps(seps);
      forall k | 0 <= k < |seps| ensures |gaps[k]| > 0 && AllSpaces(gaps[k]) {
        CommasToSpacesOfSeparators(seps[k]);
      }
      CommasToSpacesOfSeparators(lead);
      CommasToSpacesOfSeparators(trail);
      CommasToSpacesAppend(lead + body, trail);
      CommasToSpacesAppend(lead, body);
      CommasToSpacesOfJoin(ts, seps);
      var spaced := CommasToSpaces(lead) + (Join(ts, gaps) + CommasToSpaces(trail));
      assert CommasToSpaces(text) == spaced;
      WordsSkipSpaces(CommasToSpaces(lead), Join(ts, gaps) + CommasToSpaces(trail));
      WordsOfJoin(ts, gaps, CommasToSpaces(trail));
      var ws := Words(CommasToSpaces(text));
      assert ws == ts;
    }
  }

  /** Mixed case, mixed separators and a trailing newline: "tsla, AAPL\namc\n". */
  lemma ParseManualMixedExample()
    ensures ParseManual("tsla, AAPL\namc\n") == ["TSLA", "AAPL", "AMC"]
  {
    var ts, seps := ["tsla", "AAPL", "amc"], [", ", "\n"];
    assert Join(ts, seps) == "tsla, AAPL\namc";
    assert "" + Join(ts, seps) + "\n" == "tsla, AAPL\namc\n";
    ParseManualRoundTrip(ts, seps, "", "\n");
    assert Upper("tsla") == "TSLA" && Upper("AAPL") == "AAPL" && Upper("amc") == "AMC";
    assert seq(|ts|, i requires 0 <= i < |ts| => Upper(ts[i])) == [Upper("tsla"), Upper("AAPL"), Upper("amc")];
  }
}
