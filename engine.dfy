/** main (ai_engine.py:170-203) without its I/O: detection, the three votes and the confirm/dedup
    branch, over the store of the two JSON files. Also how the records it writes are read back by
    load_training_examples and by ai_memory.py. */
module Engine {
  import opened Wrappers
  import opened JsonValues
  import opened Candles
  import opened Detector
  import opened Voters
  import opened Training
  import opened SignalStore
  import opened Labels
  import Memory

  /** How one run of main ends: no candles fetched, no setup detected, or voted on with a decision. */
  datatype CycleOutcome = NoCandles | NoSetup | Voted(votes: Votes, decision: Decision)

  /** One run of main. The fetched candles, the detection time, the chart caption, the Cohere
      classifier's answer, the screenshot path and the logging time are inputs. */
  method RunCycle(store: Store, candles: seq<Candle>, detectedAt: string, caption: string,
                  cohereVote: string, imagePath: string, loggedAt: string) returns (o: CycleOutcome)
    modifies store
    ensures candles == [] ==> o == NoCandles
    ensures o.Voted? <==> DetectTrade(candles, detectedAt).Some?
    ensures !o.Voted? ==> store.lastSignal == old(store.lastSignal) && store.ledger == old(store.ledger)
    ensures o.Voted? ==>
      var s := DetectTrade(candles, detectedAt).value;
      && o.votes == Votes(cohereVote, DeepshikVote(Some(s)), Yes)
      && CommitPost(old(store.lastSignal), old(store.ledger), store.lastSignal, store.ledger,
                    s, o.votes, caption, loggedAt, o.decision)
  {
    if candles == [] {
      return NoCandles;
    }
    var signal := DetectTrade(candles, detectedAt);
    if signal.None? {
      return NoSetup;
    }
    var votes := Votes(cohereVote, DeepshikVote(signal), DonutDecision(imagePath));
    var d := store.Commit(signal.value, votes, caption, loggedAt);
    o := Voted(votes, d);
  }

  /** A record the engine writes qualifies as a training example, and since its outcome is PENDING
      (nothing in the engine ever changes it) it is labelled "NO". */
  lemma EngineRecordTrainsAsNo(s: Signal, votes: Votes, caption: string, loggedAt: string)
    ensures StepOf(JObj(TradeRecord(s, votes, caption, loggedAt))) == Keep(Example(JStr(caption), No))
  {
  }

  /** A record as save_trade_result appends it, still PENDING. */
  ghost predicate IsPendingRecord(r: Json) {
    exists s, v, c, l :: r == JObj(TradeRecord(s, v, c, l))
  }

  /** A ledger of engine records never has a YES example besides the seed. */
  lemma EngineLedgerHasNoPositiveExamples(records: seq<Json>)
    requires forall i :: 0 <= i < |records| ==> IsPendingRecord(records[i])
    ensures CountLabel(TrainingExamples(Some(records)), Yes) == 1
  {
    var w := Tail(records, Window);
    forall i | 0 <= i < |w| ensures w[i].JObj? && !IsTpHitRecord(w[i]) {
      var j := |records| - |w| + i;
      assert w[i] == records[j] && IsPendingRecord(records[j]);
      var s, v, c, l :| records[j] == JObj(TradeRecord(s, v, c, l));
    }
    NoTpHit(w);
    ScanCounts(w);
    var ex := Scan(w).0;
    CountLabelAppend(ex, Seeds[0], Yes);
    CountLabelAppend(ex + [Seeds[0]], Seeds[1], Yes);
    assert ex + Seeds == ex + [Seeds[0]] + [Seeds[1]];
  }

  lemma {:induction false} NoTpHit(w: seq<Json>)
    requires forall i :: 0 <= i < |w| ==> w[i].JObj? && !IsTpHitRecord(w[i])
    ensures AllObjects(w) && CountWhereTp(w) == 0
  {
    if w != [] {
      NoTpHit(w[..|w| - 1]);
    }
  }

  /** ai_memory.py reads votes from top-level keys chatgpt, grok and deepshik, while the engine
      files them under "votes" as cohere, deepshik and donut: a record the engine writes, even with
      its outcome later set to "TP HIT" or "SL HIT", has none of those keys. */
  lemma EngineRecordLacksVoterKeys(s: Signal, votes: Votes, caption: string, loggedAt: string, outcome: Json)
    ensures Memory.LacksVoterKeys(ResolvedRecord(s, votes, caption, loggedAt, outcome))
  {
  }

  /** An engine record whose outcome has been set to `outcome`. */
  function ResolvedRecord(s: Signal, votes: Votes, caption: string, loggedAt: string, outcome: Json): Json {
    JObj(TradeRecord(s, votes, caption, loggedAt)["outcome" := outcome])
  }

  /** A record the engine wrote, with any outcome. */
  ghost predicate IsEngineRecord(r: Json) {
    exists s, v, c, l, o :: r == ResolvedRecord(s, v, c, l, o)
  }

  /** So a history made only of engine records, whatever their outcomes, gives no weights at all. */
  lemma EngineHistoryGivesNoWeights(history: seq<Json>)
    requires forall i :: 0 <= i < |history| ==> IsEngineRecord(history[i])
    ensures Memory.Analysis(history) == Success(map[])
  {
    forall i | 0 <= i < |history| ensures Memory.LacksVoterKeys(history[i]) {
      assert IsEngineRecord(history[i]);
      var s, v, c, l, o :| history[i] == ResolvedRecord(s, v, c, l, o);
      EngineRecordLacksVoterKeys(s, v, c, l, o);
    }
    Memory.NoVoterKeysNoCounters(history);
  }
}
