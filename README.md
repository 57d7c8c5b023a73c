# Swing-sniper scoring engine in Dafny

A Dafny model of the decision logic inside `main.py` of the "Penny Stock Sniper
Guru" Streamlit app. The app builds a list of ticker symbols from two Yahoo
screener endpoints and a manual text box. It scores each ticker with a "guru"
score: float size, volume blast, relative volume, trend and close position, up
to 100 points. It keeps the tickers inside the user's price band that reach the
minimum score, stamps them Manual or Auto with a stop loss and a risk
percentage, and shows them sorted by score.

Market data come in already fetched. The replies of the screener endpoints are
a `seq<Response>`. The per-ticker data gateway (`yf.Ticker`, `info`,
`fast_info`, `history`) is a function parameter
`market: string -> Option<Snapshot>`, where `None` stands for any exception the
gateway raises. RSI(14) and ATR(14) come from a foreign library and enter the
snapshot as plain reals. Python floats are Dafny `real`s, so IEEE rounding is
not modelled.

Modules, one per component of `main.py`:

- `Options`: the `Option` datatype.
- `Ascii`: the ASCII part of `isalpha`, `isspace` and `upper`.
- `Guru` (`guru.dfy`): `get_guru_analysis`. It covers the price chain, the float
  estimate, trailing means over the bars, relative volume, close position, the
  six score terms, stop loss and risk percentage.
- `Candidates` (`candidates.dfy`): the loop of `get_raw_candidates` as a method
  with loop invariants, the `list(set(...))` dedup, and the merge with the
  manual list.
- `ManualInput` (`manual.dfy`): `manual_input.replace(',', ' ').split()` followed
  by upper-casing.
- `BatchLoop` (`batch.dfy`): the analysis loop as a method proved equal to a
  specification function. Lemmas state soundness, completeness, order and
  crash behaviour.
- `Ranking` (`ranking.dfy`): the descending sort by score.
- `Scanner` (`scan.dfy`): the button handler without its widgets.

Facts about `main.py` that shape the model:

- Candidate sourcing uses only the two screener endpoints (main.py:31-34). When
  both fail, the candidate list is empty (main.py:52-55).
- Price resolution tries `currentPrice` first, then the fast-info price, then
  the last close of a one-day history (main.py:64-71).
- SMA200 is used only when there are strictly more than 200 bars (`len(df) > 200`,
  main.py:90). Otherwise it is 0, so every positive price earns the +5 trend term.
  The history requested is six months of daily bars (main.py:74), about 126
  rows, so in practice the SMA200 branch is never taken. The model keeps the bar
  count free and states the rule for every length.
- An empty ticker list is not an error. The loop runs zero times and the page
  shows the "no results" warning (main.py:247; `Scanner.Scan` ends in `NoMatches`).
- The risk percentage divides by the price, outside any `try` (main.py:212). A
  kept result priced 0 is possible only when the minimum price is 0 or less. It
  raises and aborts the whole run. The model shows this as `Crashed` / `Failure`.

## Model

| member | source | states |
|---|---|---|
| `Guru.ResolvePrice` | main.py:64-71 | `currentPrice` when non-zero, else the fast-info price when that lookup succeeds, else the last one-day close; no price exactly when all three are unavailable |
| `Guru.DeriveFloat` | main.py:78-82 | a reported float is kept; a missing one is estimated as market cap / price exactly when the price is positive (the estimate times the price is the market cap), and stays missing otherwise |
| `Guru.FloatMillions` | main.py:123 | "Float (M)" is 0 exactly when the float is None or 0, and otherwise is the float in millions |
| `Guru.ClosePosition` | main.py:94-95 | 0 for an empty or inverted day range; otherwise (close - low) / range, which lies in [0,1] whenever low ≤ close ≤ high |
| `Guru.Measure` | main.py:84-95 | the indicators at the last bar: today's volume, the 20-bar mean volume, SMA20 and SMA50 each times its window equal the sum of that window; SMA200 likewise for more than 200 bars and 0 for 200 or fewer; the close position of the last bar; price and float passed through |
| `Guru.Rvol` | main.py:108 | relative volume is 0 when the 20-bar mean volume is ≤ 0, and otherwise times that mean gives today's volume (its inputs come from `Guru.Measure`) |
| `Guru.Score` | main.py:98-117 | the sum of the six terms is an integer in [0,100] |
| `Guru.PerfectScore` | main.py:98-117 | the score is 100 exactly when all six terms fire (25+25+20+10+5+15) |
| `Guru.FloatTiers` | main.py:101-105 | +25 exactly for a truthy float below 10M, +15 exactly for 10M ≤ float < 20M; turnover +25 exactly when volume exceeds a truthy float; a float of None or 0 earns nothing from these three terms |
| `Guru.RvolTiers` | main.py:108-110 | +20 exactly when the mean volume is positive and volume > 5 × mean; +10 exactly when 3 × mean < volume ≤ 5 × mean |
| `Guru.ShortHistoryLongTrend` | main.py:90-114 | with 200 or fewer bars SMA200 is 0 and the +5 term fires exactly for a positive price |
| `Guru.TrendFromRecentCloses` | main.py:88-113 | a price above every close of the last 50 bars is above both SMA20 and SMA50, so the +10 term fires |
| `Guru.MeanBelow` | main.py:88-89 | a trailing mean of values all below p is below p |
| `Guru.StopLoss` | main.py:128 | the stop is at least 0.01 and at least price − 2.5·ATR, and equals one of the two |
| `Guru.RiskPct` | main.py:212 | "Riesgo %" is defined for a non-zero price only (price 0 is `BatchLoop.Judge`'s `DivisionByZero`); the risk times the price is (price − stop)·100, and for 0 < stop ≤ price it lies in [0,100) |
| `Guru.RiskBounds` | main.py:212 | for ATR ≥ 0 and price ≥ 0.01 the stop lies in (0, price] and the risk % lies in [0,100) |
| `Guru.Analyze` | main.py:57-132 | None exactly when the data cannot be fetched, no price resolves, or fewer than 50 bars came back; otherwise it keeps ticker, resolved price, RSI and ATR, and every other column is its definition over the derived float and the indicators: the six-term score (in [0,100]), "Float (M)" (zero exactly for a falsy float), RVOL, the stop loss max(price − 2.5·ATR, 0.01), and the close % (in [0,100] for a well-formed last bar) |
| `Candidates.CollectedMembers` | main.py:41-53 | a symbol is appended exactly when it is alphabetic and some endpoint reply lists it before that reply's first entry that raises |
| `Candidates.Dedup` | main.py:55 | the result has no duplicates and the same members as the input |
| `Candidates.GetRawCandidates` | main.py:26-55 | the nested loops build the specified candidate list; the result has no duplicates and holds exactly the alphabetic symbols the replies list |
| `Candidates.Merge` | main.py:187 | the merged list has no duplicates and its members are exactly those of the API list and the manual list |
| `ManualInput.Words` | main.py:183 | every word `split()` yields is non-empty and has no whitespace |
| `ManualInput.CommasToSpaces` | main.py:183 | `replace(',', ' ')`: same length, no comma left, every comma becomes a space and every other character is kept |
| `ManualInput.ParseManual` | main.py:180-184 | every manual token is non-empty, has no comma or whitespace and no lower-case letter; empty text gives the empty list |
| `ManualInput.WordsCoverInput` | main.py:183 | the words, concatenated in order, are the input with its whitespace removed |
| `ManualInput.ParseManualContents` | main.py:180-184 | the tokens, concatenated in order, are the upper-cased input with every comma and whitespace character removed |
| `ManualInput.WordsOfJoin` | main.py:183 | words written out with a non-empty run of whitespace in each gap, each gap its own, and any run of whitespace after the last split back into exactly those words |
| `ManualInput.ParseManualRoundTrip` | main.py:180-184 | tickers of any letter case written with a non-empty run of commas and whitespace in each gap (each gap its own run) and any such run before the first and after the last parse back to exactly that list, each ticker upper-cased |
| `ManualInput.ParseManualMixedExample` | main.py:180-184 | the text "tsla, AAPL\namc\n" (mixed case, mixed separators, trailing newline) parses to exactly ["TSLA", "AAPL", "AMC"] |
| `Ascii.ToUpper` | main.py:184 | the result is never a lower-case letter; lower-case letters move to their capitals and every other character is unchanged |
| `Ascii.Upper` | main.py:184 | `upper()` on ASCII: same length, no lower-case letter left, lower-case letters become their capitals and every other character is kept |
| `BatchLoop.Judge` | main.py:198-213 | a ticker is dropped exactly when its analysis is None or fails the price band or minimum score; a passing result priced 0 raises in the risk division; a kept row carries that analysis, origin Manual exactly when the ticker is in the manual list, and its risk % |
| `BatchLoop.RunBatch` | main.py:191-214 | the loop's outcome is the batch specification: rows appended in ticker order, or the abort at the first kept result priced 0 |
| `BatchLoop.BatchSound` | main.py:198-214 | every row comes from a non-None analysis of a batch ticker, has min ≤ price ≤ max and score ≥ min score, and is Manual exactly when its ticker is in the manual list |
| `BatchLoop.BatchComplete` | main.py:198-214 | every ticker whose analysis passes the filters has its row in the result |
| `BatchLoop.BatchOrder` | main.py:194-214 | the row tickers are a subsequence of the batch tickers (encounter order) |
| `BatchLoop.BatchOnePerTicker` | main.py:187-214 | a batch without duplicate tickers gives at most one row per ticker |
| `BatchLoop.BatchCrash` | main.py:202-212 | an aborted run names a batch ticker whose passing analysis has price 0, which needs min price ≤ 0 ≤ max price |
| `BatchLoop.BatchRiskBounds` | main.py:198-213 | every kept row with a non-negative ATR and a price at or above 0.01 has a risk % in [0,100) |
| `BatchLoop.CrashIsFinal` | main.py:212 | once the loop has aborted, later tickers change nothing |
| `Ranking.InsertPermutes` | main.py:221 | inserting a row into the table adds exactly that row and loses none |
| `Ranking.InsertSorted` | main.py:221 | inserting a row into a score-descending table keeps it descending |
| `Ranking.SortByScore` | main.py:221 | the table is sorted by score, descending, and is a permutation of the kept rows |
| `Ranking.SortKeepsOnePerTicker` | main.py:221 | sorting a table with one row per ticker keeps one row per ticker |
| `Scanner.Scan` | main.py:172-247 | the page shows a failure exactly when the loop aborts, the warning exactly when no row was kept (including an empty ticker list), and otherwise a non-empty table sorted by score that is a permutation of the kept rows, where every row's ticker is a candidate, every row passes the filters, every row is Manual exactly when its ticker was typed in, no ticker has two rows, and the risk % is in [0,100) for a non-negative ATR and a price at or above 0.01 |

## Left out

- Streamlit presentation: page config, CSS, sidebar widgets, progress bar, status text, dataframe styling and number formats, the column selection, and `session_state` (main.py:1-21, 134-170, 189-190, 195-196, 216-247). These only display results.
- The colour functions `highlight_score`, `highlight_float` and `highlight_rvol` (main.py:155-167). They give presentation hints only.
- HTTP requests, headers, timeouts, JSON navigation and the five-minute `st.cache_data` cache (main.py:25, 31-47). They are I/O. Replies come in as `Response` values, and a missing `finance.result` counts the same as a failed request.
- Calls into the market-data library, which are foreign (main.py:60-74). Their outputs are the fields of `Snapshot`. A failure anywhere in them is `market(t) == None`.
- `Guru.ResolvePrice`: a `currentPrice` key holding `None` is not modelled. In Python that value is not equal to 0 and flows on, possibly raising later. The model reads a missing price as 0 and an existing one as a real.
- RSI(14) and ATR(14) (main.py:91-92). They come from a foreign library, so they are inputs and Wilder smoothing is not reimplemented.
- Floating-point behaviour: NaN from missing bars, infinities and rounding in means and divisions. Dafny reals are exact.
- `Guru.Analyze`: the numpy case of a zero price is not modelled. When the price comes from the one-day history it is a numpy float, and dividing by a zero price gives inf or NaN instead of raising. The model follows the Python-float case (`BatchLoop.BatchCrash`).
- Unicode: `isalpha`, `isspace` and `upper` are modelled on ASCII only. Non-ASCII letters are rejected and non-ASCII whitespace is not a separator.
- `Candidates.Dedup`: the order of `list(set(...))` is unspecified in Python. The model keeps first occurrences, and only membership and the absence of duplicates are claimed. The batch order and crash ticker depend on that order.
- `Ranking.SortByScore`: pandas' default sort is not stable, so the order among equal scores is not claimed.
- `x.strip()` and the `if x.strip()` filter on the manual tokens (main.py:184) do nothing after `split()`, so they have no model of their own.
- An entry whose `symbol` is a non-string value such as a number is not modelled separately from `Malformed` (an entry that raises) and `Quote(None)` (a falsy one).
