# BTC signal engine: a Dafny model

This project models the decision core of a small BTC/USD trading-signal bot.

It covers `ai_engine.py`:
- The 15-minute candle detector `detect_trade`.
- The three advisory voters: `cohere_decision` (taken as an input), `deepshik_vote` and `donut_decision`.
- The 2-of-3 majority rule.
- The duplicate check against `last_signal.json` (`is_duplicate_signal`).
- The append-only ledger `trade_history.json` (`save_trade_result`).
- The training examples built from that ledger (`load_training_examples`).
- The confirm, deduplicate and commit branch of `main`.

It also covers `ai_memory.py`:
- The text preparation of `load_trade_history`.
- `analyze_ai_performance`, which counts each voter's YES votes on trades resolved as "TP HIT" or "SL HIT" and turns them into accuracy weights.

Modules:
- `Labels`: the vote labels "YES" and "NO" and the outcome strings "TP HIT", "SL HIT" and "PENDING", defined once.
- `Wrappers`, `JsonValues`, `PyText`: Option and Result; JSON values as Python's `json` module returns them; the string operations used (`in`, `upper`, `capitalize`, whitespace).
- `Candles`: candle windows, Python's negative slices, sums, means, true range and ATR.
- `Detector`: `detect_trade` and a reference statement of the bullish and bearish setups on candle positions.
- `Voters`: the three voters and the majority test.
- `Training`: `load_training_examples`, as a method with a loop proved equal to a specification function.
- `SignalStore`: the two JSON files as a `Store` class, the duplicate test, `save_trade_result` and the commit branch.
- `Engine`: one run of `main`, and how the records it writes are read back by the training loader and by `ai_memory.py`.
- `Memory`: `load_trade_history`'s text handling and `analyze_ai_performance`, as a method with nested loops proved equal to a specification function.

Behaviour of the code worth knowing:
- A duplicate is dropped without being logged.
- Accepted and rejected signals are both logged with outcome "PENDING". No status is recorded, and nothing in the code ever resolves an outcome.
- There is no ambiguity rule. The two setups simply cannot hold together (`Detector.SetupsExclusive`).
- There is no risk/reward gate and no weighting of the votes. The reward is always twice the risk by construction.
- The 0.5 default weight can never be produced. A voter gets a counter only together with a first count (`Memory.WeightsFromCounts`).
- `ai_memory.py` reads votes from top-level keys `chatgpt`, `grok` and `deepshik`. The engine writes them under `votes` as `cohere`, `deepshik` and `donut`. On engine records the memory therefore counts nothing (`Engine.EngineHistoryGivesNoWeights`).
- `ai_memory.py` wraps the file in brackets, while the engine writes a JSON list. So the memory sees a list holding a list, and its first `.get` raises (`Memory.WrappedLedgerRaises`).

## Model

| member | source | states |
|---|---|---|
| Candles.Tail | ai_engine.py:111 | `xs[-k:]` has min(k, len xs) elements, and they are the last ones of `xs` in order |
| Candles.TailOfTail | ai_engine.py:113 | taking the last k of the last m (k <= m) equals taking the last k: `closes[-60:][-9:] == closes[-9:]` |
| Candles.Closes | ai_engine.py:107 | one close per candle, position by position |
| Candles.Volumes | ai_engine.py:110 | one volume per candle, position by position |
| Candles.TrueRange | ai_engine.py:115 | a true-range term is non-negative and at least the candle's high minus low |
| Candles.TrueRanges | ai_engine.py:115 | one term for each candle after the first |
| Candles.AtrNonNegative | ai_engine.py:115-116 | the ATR (sum of the last 14 terms divided by 14) is non-negative |
| Candles.Sum | ai_engine.py:111 | no contract; defines Python's `sum`, adding left to right |
| Candles.TrailingMean | ai_engine.py:111 | no contract; defines the source's `ema`: the sum of the last l values divided by l |
| Candles.Atr | ai_engine.py:116 | no contract; defines `atr`: the last 14 true ranges summed and divided by 14 (its sign is stated by Candles.AtrNonNegative) |
| Detector.IsOrderBlock | ai_engine.py:123 | no contract; defines an order block: volume over 50 and a body of at least a tenth of the range |
| Detector.HasOrderBlock | ai_engine.py:122-125 | no contract; defines the `any(...)` over a window |
| Detector.MtfBull | ai_engine.py:113 | no contract; defines `mtf_bull` on `closes[-60:]` |
| Detector.MtfBear | ai_engine.py:114 | no contract; defines `mtf_bear` on `closes[-60:]` |
| Detector.BosUp | ai_engine.py:118-120 | no contract; defines `bos_up` on the second- and third-last highs |
| Detector.BosDown | ai_engine.py:118-120 | no contract; defines `bos_down` on the second- and third-last lows |
| Detector.ValidOb | ai_engine.py:122-125 | no contract; defines `valid_ob` over `candles[-5:-2]` |
| Detector.VolumeSpike | ai_engine.py:128 | no contract; defines `volume_spike` over `volumes[-5:-1]` |
| Detector.BullishEntry | ai_engine.py:127-129 | no contract; defines the last-candle conditions of the BUY branch |
| Detector.BearishEntry | ai_engine.py:127-136 | no contract; defines the last-candle conditions of the SELL branch |
| Detector.BullishTrigger | ai_engine.py:129 | no contract; defines the BUY branch's condition |
| Detector.BearishTrigger | ai_engine.py:136 | no contract; defines the SELL branch's condition |
| Detector.BuySetup | ai_engine.py:111-129 | no contract; the reference bullish setup, written on candle positions n-1..n-5 and position means |
| Detector.SellSetup | ai_engine.py:111-136 | no contract; the reference bearish setup, the mirror of BuySetup |
| Detector.BuySignal | ai_engine.py:130-134 | a BUY whose take-profit distance is twice its stop distance |
| Detector.SellSignal | ai_engine.py:137-141 | a SELL whose take-profit distance is twice its stop distance |
| Detector.DetectTrade | ai_engine.py:103-144 | no signal under 60 candles; a signal carries the last candle as entry candle, the third-last as `bos`, the last candle's time and the detection time, and reward = 2 x risk in its direction |
| Detector.TailClosesMean | ai_engine.py:111-113 | the mean of the last k of `closes[-60:]` and of `closes` are both the mean close of the last k candles |
| Detector.WindowFacts | ai_engine.py:122-128 | `any` over `candles[-5:-2]` is an order block at position n-5, n-4 or n-3; `sum(volumes[-5:-1])` is the sum of the four volumes before the last |
| Detector.MeansOnPositions | ai_engine.py:111-114 | `mtf_bull`, `mtf_bear` and the two entry conditions, each equivalent to a comparison of position means |
| Detector.WindowOnPositions | ai_engine.py:122-128 | `valid_ob` and `volume_spike`, each equivalent to a condition on the candles at positions n-5..n-1 |
| Detector.TriggersMatchSetups | ai_engine.py:129-136 | the BUY condition holds exactly when the reference bullish setup does, and the SELL condition exactly when the bearish one does |
| Detector.SetupsExclusive | ai_engine.py:113-114 | the bullish and bearish setups never hold together |
| Detector.DetectBuyIff | ai_engine.py:104-134 | a BUY is returned if and only if there are at least 60 candles and the bullish setup holds |
| Detector.DetectSellIff | ai_engine.py:104-141 | a SELL is returned if and only if there are at least 60 candles and the bearish setup holds |
| Detector.DetectNoneIff | ai_engine.py:103-144 | None is returned if and only if the window is short or neither setup holds |
| Detector.BuyLevels | ai_engine.py:130-131 | BUY entry at the last high, stop half an ATR under the last low, tp = entry + 2(entry - sl); when low <= high, sl <= entry <= tp |
| Detector.SellLevels | ai_engine.py:137-138 | SELL entry at the last low, stop half an ATR over the last high, tp = entry - 2(sl - entry); when low <= high, tp <= entry <= sl |
| Detector.StopDistance | ai_engine.py:130-138 | in both directions, the stop distance is abs(last range + ATR/2) |
| Voters.DeepshikVote | ai_engine.py:62-65 | answers only "YES" or "NO"; the deciding condition on a detected signal is stated by Voters.DeepshikOnDetected |
| Voters.YesCount | ai_engine.py:193 | `count("YES")` over the three votes is at most 3 |
| Voters.Confirmed | ai_engine.py:193 | no contract; defines confirmation as at least two exact "YES" votes |
| Voters.DonutDecision | ai_engine.py:67-68 | always YES, whatever the image |
| Voters.DeepshikOnDetected | ai_engine.py:62-65 | on a detected signal, Deepshik says YES if and only if abs(last range + ATR/2) >= 50 and the entry candle's volume > 50 |
| Voters.ConfirmedIffTwoAgree | ai_engine.py:193 | confirmed if and only if some two of the three votes are exactly "YES" |
| Voters.ConfirmedWithDonut | ai_engine.py:184-193 | with the placeholder donut vote, confirmed if and only if Cohere or Deepshik says YES |
| Voters.MajorityExamples | ai_engine.py:193 | [YES, YES, NO] confirms; [YES, NO, NO] does not; a lower-case "yes" does not count |
| Training.StepOf | ai_engine.py:38-43 | no contract; defines what the loop body does with one entry: keep an example, skip it, or raise (a number, boolean or null entry, or a string or list holding both keys) |
| Training.Scan | ai_engine.py:38-43 | no contract; defines the examples gathered in order and whether an exception ended the loop |
| Training.TrainingExamples | ai_engine.py:33-48 | no contract; defines the result: the scan of the last 50 entries (none for an unreadable file) followed by the two seeds |
| Training.QualifyingRecords | ai_engine.py:39 | the records holding caption and outcome, in ledger order; each one qualifies |
| Training.ScanRecords | ai_engine.py:38-41 | on object entries, never aborts; the j-th example is the j-th qualifying record's caption, labelled "YES" exactly when its outcome is "TP HIT" and "NO" otherwise |
| Training.LoadTrainingExamples | ai_engine.py:33-48 | the loop over the last 50 ledger entries, stopped by an exception and followed by the two seeds, returns `TrainingExamples(ledger)` |
| Training.AbortIsFinal | ai_engine.py:35-43 | once an exception has ended the loop, later entries change nothing |
| Training.ScanCounts | ai_engine.py:38-41 | on object entries, never aborts; yields one example per entry with caption and outcome; YES examples = entries with outcome "TP HIT", NO examples = the rest |
| Training.ScanBounded | ai_engine.py:38-41 | at most one example per entry |
| Training.ExamplesShape | ai_engine.py:44-47 | between 2 and 52 examples, always ending with the two seeds |
| Training.OnlyLastFifty | ai_engine.py:38 | records older than the last 50 never influence the examples |
| Training.UnreadableLedger | ai_engine.py:33-48 | a missing or unparsable ledger yields exactly the two seeds |
| Training.NumberStopsScan | ai_engine.py:38-43 | a number entry raises: examples before it are kept, none after it is read |
| SignalStore.SignalFields | ai_engine.py:132-134 | no contract; defines the signal dict as json.dump writes it |
| SignalStore.TradeRecord | ai_engine.py:161-164 | no contract; defines the ledger record: the signal's fields plus votes, caption, outcome "PENDING" and logged_at |
| SignalStore.IsDuplicate | ai_engine.py:147-153 | no contract; defines the duplicate test (its meaning is stated by SignalStore.DuplicateIff) |
| SignalStore.Readable | ai_engine.py:156-160 | no contract; defines the ledger as save_trade_result reads it, an unreadable file counting as `[]` |
| SignalStore.DuplicateIff | ai_engine.py:147-153 | a stored signal is a duplicate of a candidate if and only if they agree on direction, entry, sl and tp |
| SignalStore.DuplicateIgnoresOtherFields | ai_engine.py:151 | candidates equal on those four fields are judged alike, whatever their time, timestamp or setup |
| SignalStore.EarlierRecordsKept | ai_engine.py:155-167 | after a commit, earlier ledger records are unchanged, at most one record is added, and a new record carries the votes, the caption and outcome PENDING |
| SignalStore.Store.SaveTradeResult | ai_engine.py:155-167 | appends one PENDING record to the readable ledger (an unreadable one counts as empty); the last signal is untouched |
| SignalStore.Store.Commit | ai_engine.py:193-203 | majority and duplicate: nothing changes; majority and new: becomes the last signal and is logged; no majority: only logged |
| SignalStore.ReplayIsDuplicate | ai_engine.py:193-199 | offering a committed signal again with a majority is refused as a duplicate and leaves the ledger as it was |
| Engine.RunCycle | ai_engine.py:170-203 | no candles or no setup leaves the store alone; otherwise the votes are (Cohere, Deepshik on the signal, YES) and the store changes as `Commit` states |
| Engine.EngineRecordTrainsAsNo | ai_engine.py:39-41 | a record the engine writes becomes a training example labelled NO, with its caption as text |
| Engine.EngineLedgerHasNoPositiveExamples | ai_engine.py:33-48 | on a ledger of engine records, the only YES example is the seed |
| Engine.EngineRecordLacksVoterKeys | ai_memory.py:29-31 | an engine record, whatever its outcome, has none of the keys `chatgpt`, `grok`, `deepshik` at its top level |
| Engine.EngineHistoryGivesNoWeights | ai_memory.py:20-46 | a history of engine records gives an empty weight map |
| Memory.CleanHistoryText | ai_memory.py:14 | no contract; defines `strip().rstrip(",")` as the composition of the three strips |
| Memory.Lookup | ai_memory.py:22 | no contract; defines the defaultdict read, zero counters for an unseen name |
| Memory.Bump | ai_memory.py:33-34 | no contract; defines one count: the outcome's counter and Total each go up by one |
| Memory.VoteText | ai_memory.py:30 | no contract; defines `trade.get(ai, "").upper()`, raising AttributeError on a non-string |
| Memory.ResolvedOutcome | ai_memory.py:25-27 | no contract; defines the outcome filter: exactly "TP HIT" or "SL HIT" |
| Memory.CountVotes | ai_memory.py:29-34 | no contract; defines the inner loop over a prefix of the voter keys |
| Memory.TallyTrade | ai_memory.py:24-34 | no contract; defines one pass of the outer loop, raising on a non-object entry |
| Memory.Tally | ai_memory.py:24-34 | no contract; defines the counters after the outer loop, or the exception it raised |
| Memory.Weight | ai_memory.py:39-44 | no contract; defines one weight: 0.5 for a zero total, otherwise round(TP/Total, 2) |
| Memory.Weights | ai_memory.py:37-44 | no contract; defines the weight map over the counters |
| Memory.Analysis | ai_memory.py:20-46 | no contract; defines the return value: the weights of the tally, or the exception |
| Memory.YesVotes | ai_memory.py:24-34 | no contract; the reference count of resolved records with a given outcome on which a voter voted YES |
| Memory.WellCounted | ai_memory.py:22-34 | no contract; defines well-formed counters: voter names only, TP + SL = Total >= 1 |
| Memory.StripEnd | ai_memory.py:14 | `rstrip()` keeps a prefix, removes only whitespace, and leaves no trailing whitespace |
| Memory.StripStart | ai_memory.py:14 | `lstrip` half of `strip()` keeps a suffix, removes only whitespace, and leaves no leading whitespace |
| Memory.StripCommas | ai_memory.py:14 | `rstrip(",")` keeps a prefix, removes only commas, and leaves no trailing comma |
| Memory.PrepareHistoryText | ai_memory.py:9-18 | a missing file gives `[]`; otherwise the text is `[` + cleaned + `]`, not starting with whitespace inside and not ending with a comma |
| Memory.CleanedSpan | ai_memory.py:14 | the cleaned text is a slice of the file; what was cut in front is whitespace, and what was cut behind is whitespace or commas |
| Memory.PreparedIsInfix | ai_memory.py:14-17 | the wrapped text is `[` + a contiguous piece of the file + `]`, with only whitespace cut before and whitespace or commas cut after |
| Memory.BlankFileIsEmpty | ai_memory.py:14-16 | an all-whitespace file gives an empty history; an empty history means the file held only whitespace and commas |
| Memory.Round2 | ai_memory.py:44 | `round(x, 2)` is a multiple of 0.01 within 0.005 of x, and stays in [0, 1] when x does |
| Memory.TallyFailureIsFinal | ai_memory.py:24-31 | once the loop has raised, later records change nothing |
| Memory.CountFailureIsFinal | ai_memory.py:29-31 | once the inner loop has raised, later voter keys change nothing |
| Memory.AnalyzeAiPerformance | ai_memory.py:20-46 | the nested loops and the weight loop return `Analysis(history)`: the weights of the tally, or the exception |
| Memory.ComputeWeights | ai_memory.py:37-44 | the weight loop, in any key order, gives each counter its weight |
| Memory.VoterNamesOfKeys | ai_memory.py:32 | `capitalize` files `chatgpt`, `grok` and `deepshik` under Chatgpt, Grok and Deepshik |
| Memory.VoterNamesDistinct | ai_memory.py:29-32 | the three keys get three distinct names |
| Memory.CountVotesStep | ai_memory.py:29-34 | one inner step bumps the key's counter exactly when its vote reads as YES |
| Memory.CountVotesWellCounted | ai_memory.py:29-34 | the inner loop keeps every counter under a voter name, with TP + SL = Total >= 1 |
| Memory.BumpWellCounted | ai_memory.py:33-34 | bumping a voter's counter keeps TP + SL = Total >= 1 |
| Memory.CountVotesEffect | ai_memory.py:29-34 | after the inner loop, exactly the voters whose vote reads as YES have been bumped once |
| Memory.TallyMatchesCounts | ai_memory.py:24-34 | for each voter, the TP and SL counters equal the number of TP-resolved and SL-resolved records with its YES vote, and Total is their sum; no other name gets a counter |
| Memory.TallyWellCounted | ai_memory.py:24-34 | the tally keeps every counter well formed |
| Memory.TallyCountsFor | ai_memory.py:24-34 | the counters of one voter agree with the reference count |
| Memory.UnresolvedIgnored | ai_memory.py:25-27 | a record whose outcome is not exactly "TP HIT" or "SL HIT" changes nothing |
| Memory.OnlyVoterKeysRead | ai_memory.py:29-31 | the inner loop reads only the three voter keys of a record |
| Memory.SameVoterKeysSameTally | ai_memory.py:25-31 | records agreeing on outcome and the three voter keys are tallied alike |
| Memory.CountVotesFailsIff | ai_memory.py:29-30 | the inner loop raises if and only if a voter key holds a non-string |
| Memory.TallyFailsIff | ai_memory.py:24-31 | the analysis raises if and only if some record is not an object, or is resolved with a non-string voter key |
| Memory.WeightsFromCounts | ai_memory.py:37-44 | only the three voter names get a weight; a voter has one if and only if it has a counted YES vote; the weight is round(TP/(TP+SL), 2), which lies in [0, 1] |
| Memory.WeightsOfVoters | ai_memory.py:37-44 | over well-formed counters, each voter name's weight is its rounded TP ratio, present exactly when Total >= 1 |
| Memory.WeightOfCounter | ai_memory.py:38-44 | a name has a weight exactly when it has a counter, and the weight is its rounded TP ratio in [0, 1] |
| Memory.TwoOfThreeWeight | ai_memory.py:44 | two TP and one SL give 0.67 |
| Memory.WrappedLedgerRaises | ai_memory.py:17 | the engine's list, wrapped once more, makes the analysis raise AttributeError |
| Memory.NoVoterKeysNoCounters | ai_memory.py:24-34 | records without top-level voter keys produce no counters at all |
| PyText.Contains | ai_memory.py:31 | no contract; defines Python's substring test `sub in s` |
| PyText.IsSpace | ai_memory.py:14 | no contract; defines the ASCII whitespace `strip()` removes |
| PyText.Capitalize | ai_memory.py:32 | `capitalize()` upper-cases the first character and lower-cases the rest |
| PyText.Upper | ai_memory.py:30 | `upper()` upper-cases each character in place |
| JsonValues.Get | ai_memory.py:25 | `dict.get(key)` is the value when the key is present, and None otherwise |

## Left out

- Voters.DeepshikVote: its own contract only says the answer is YES or NO. The deciding condition on a detected signal is stated by `Voters.DeepshikOnDetected`.
- `fetch_candles`: an HTTP call to a market-data service. The candle window is an input.
- BLIP captioning and the Cohere classifier: calls into model libraries and a web API. The caption and Cohere's answer are inputs; the source maps an exception to "NO".
- `screenshot.py`, `send_signal.py`, `main.py` and `scheduler.py`: chart rendering, chat delivery and scheduling, all external I/O.
- File reading and writing, JSON parsing and serialisation: the files are modelled by their parsed contents (`Option<Json>`, `Option<seq<Json>>`), with None for a missing or unparsable file. A ledger whose top level is not a list is not represented.
- `datetime.now`: the detection and logging times are parameters.
- IEEE floating point: prices are exact reals. `Memory.Round2` is half-to-even rounding of the exact ratio, not of its binary double.
- Unicode: `upper`, `capitalize` and whitespace cover ASCII only; e.g. non-ASCII letters, U+0085 or U+00A0 are not treated as Python does.
- Python's `True == 1`: JSON booleans and numbers are distinct values here.
- Dictionary order: the weight map is a map, so its key order is not modelled.
- In-place mutation of the signal dict by `save_trade_result`: the record is built as a new value. The confirmed signal saved to `last_signal.json` is the signal before those fields are added, as in the source (it is written first).
- Concurrency between runs sharing the two files.
- Outcome evaluation, weighted voting, a risk/reward gate, level reconciliation: the code has none of them.
