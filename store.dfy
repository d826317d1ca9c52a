/** The two JSON files of ai_engine.py as state: last_signal.json (the last confirmed signal, used
    for deduplication) and trade_history.json (the ledger). is_duplicate_signal,
    save_trade_result and the vote/dedup/commit branch of main (ai_engine.py:147-167, 193-203). */
module SignalStore {
  import opened Wrappers
  import opened JsonValues
  import opened Candles
  import opened Detector
  import opened Voters
  import opened Labels

  function DirectionName(d: Direction): string {
    match d
    case Buy => "BUY"
    case Sell => "SELL"
  }

  function CandleJson(c: Candle): Json {
    JObj(map["time" := JStr(c.time), "open" := JNum(c.open), "high" := JNum(c.high),
             "low" := JNum(c.low), "close" := JNum(c.close), "volume" := JNum(c.volume)])
  }

  /** The signal dict detect_trade builds, as json.dump writes it. */
  function SignalFields(s: Signal): map<string, Json> {
    map["direction" := JStr(DirectionName(s.direction)), "entry" := JNum(s.entry), "sl" := JNum(s.sl),
        "tp" := JNum(s.tp), "time" := JStr(s.time), "timestamp" := JStr(s.timestamp),
        "setup" := JObj(map["bos" := CandleJson(s.setup.bos), "entry_candle" := CandleJson(s.setup.entryCandle)])]
  }

  function VotesJson(v: Votes): Json {
    JObj(map["cohere" := JStr(v.cohere), "deepshik" := JStr(v.deepshik), "donut" := JStr(v.donut)])
  }

  /** The ledger record save_trade_result appends: the signal's fields plus votes, caption, a
      PENDING outcome and the logging time. */
  function TradeRecord(s: Signal, votes: Votes, caption: string, loggedAt: string): map<string, Json> {
    SignalFields(s)["votes" := VotesJson(votes)]["caption" := JStr(caption)]
                   ["outcome" := JStr(Pending)]["logged_at" := JStr(loggedAt)]
  }

  /** The four fields the duplicate test compares, in the source's order. */
  const DecisionKeys: seq<string> := ["entry", "sl", "tp", "direction"]

  /** `last.get(k) == signal.get(k)` for one key. */
  predicate SameField(last: map<string, Json>, s: Signal, k: string)
    requires k in SignalFields(s)
  {
    Get(last, k) == Some(SignalFields(s)[k])
  }

  /** is_duplicate_signal: the stored value is an object agreeing with the candidate on entry, sl,
      tp and direction. An absent or unreadable file, or one that does not hold an object (its
      `.get` raises), gives False. */
  predicate IsDuplicate(last: Option<Json>, s: Signal) {
    && last.Some? && last.value.JObj?
    && forall k :: k in DecisionKeys ==> SameField(last.value.fields, s, k)
  }

  /** A stored signal is a duplicate of a candidate exactly when the two agree on direction,
      entry, stop-loss and take-profit; every other field is ignored. */
  lemma DuplicateIff(stored: Signal, candidate: Signal)
    ensures IsDuplicate(Some(JObj(SignalFields(stored))), candidate) <==>
      && stored.direction == candidate.direction
      && stored.entry == candidate.entry && stored.sl == candidate.sl && stored.tp == candidate.tp
  {
    var last := SignalFields(stored);
    if IsDuplicate(Some(JObj(last)), candidate) {
      assert SameField(last, candidate, "entry");
      assert SameField(last, candidate, "sl");
      assert SameField(last, candidate, "tp");
      assert SameField(last, candidate, "direction");
      assert DirectionName(stored.direction) == DirectionName(candidate.direction);
    }
  }

  /** The duplicate test sees only the four decision fields of the candidate. */
  lemma DuplicateIgnoresOtherFields(last: Option<Json>, p: Signal, q: Signal)
    requires p.direction == q.direction && p.entry == q.entry && p.sl == q.sl && p.tp == q.tp
    ensures IsDuplicate(last, p) == IsDuplicate(last, q)
  {
    forall k | k in DecisionKeys
      ensures SignalFields(p)[k] == SignalFields(q)[k]
    {
    }
  }

  /** Outcome of the confirm/dedup branch of main. */
  datatype Decision = Duplicate | Accepted | Rejected

  /** The ledger as save_trade_result reads it: an unreadable file counts as an empty list. */
  function Readable(ledger: Option<seq<Json>>): seq<Json> {
    ledger.GetOr([])
  }

  /** The store before and after the confirm/dedup branch of main with decision d: a duplicate
      changes nothing; otherwise one PENDING record is appended to the readable ledger; only an
      accepted signal replaces the last signal. */
  predicate CommitPost(oldLast: Option<Json>, oldLedger: Option<seq<Json>>,
                       newLast: Option<Json>, newLedger: Option<seq<Json>>,
                       s: Signal, votes: Votes, caption: string, loggedAt: string, d: Decision)
  {
    && (d == Duplicate <==> Confirmed(votes) && IsDuplicate(oldLast, s))
    && (d == Accepted <==> Confirmed(votes) && !IsDuplicate(oldLast, s))
    && (d == Rejected <==> !Confirmed(votes))
    && (d == Duplicate ==> newLast == oldLast && newLedger == oldLedger)
    && (d == Accepted ==> newLast == Some(JObj(SignalFields(s))))
    && (d == Rejected ==> newLast == oldLast)
    && (d != Duplicate ==>
          newLedger == Some(Readable(oldLedger) + [JObj(TradeRecord(s, votes, caption, loggedAt))]))
  }

  /** Whatever the decision, the records already in a readable ledger stay as they were, the ledger
      grows by at most one record, and a new record carries the votes, the caption and a PENDING outcome. */
  lemma EarlierRecordsKept(oldLast: Option<Json>, oldLedger: Option<seq<Json>>,
                           newLast: Option<Json>, newLedger: Option<seq<Json>>,
                           s: Signal, votes: Votes, caption: string, loggedAt: string, d: Decision)
    requires CommitPost(oldLast, oldLedger, newLast, newLedger, s, votes, caption, loggedAt, d)
    ensures oldLedger.Some? ==>
      && newLedger.Some? && |oldLedger.value| <= |newLedger.value| <= |oldLedger.value| + 1
      && newLedger.value[..|oldLedger.value|] == oldLedger.value
    ensures newLedger != oldLedger ==>
      && newLedger.Some? && |newLedger.value| > 0
      && var r := newLedger.value[|newLedger.value| - 1];
         r.JObj? && r.fields["votes"] == VotesJson(votes) && r.fields["caption"] == JStr(caption)
         && r.fields["outcome"] == JStr(Pending)
  {
    if d != Duplicate && oldLedger.Some? {
      assert (oldLedger.value + [JObj(TradeRecord(s, votes, caption, loggedAt))])[..|oldLedger.value|] == oldLedger.value;
    }
  }

  class Store {
    /** Contents of last_signal.json; None when absent or not valid JSON. */
    var lastSignal: Option<Json>
    /** Contents of trade_history.json; None when absent or not valid JSON. */
    var ledger: Option<seq<Json>>

    constructor (lastSignal: Option<Json>, ledger: Option<seq<Json>>)
      ensures this.lastSignal == lastSignal && this.ledger == ledger
    {
      this.lastSignal := lastSignal;
      this.ledger := ledger;
    }

    /** save_trade_result: append one PENDING record to the ledger and rewrite it; the last
        signal is not touched. */
    method SaveTradeResult(s: Signal, votes: Votes, caption: string, loggedAt: string)
      modifies this
      ensures lastSignal == old(lastSignal)
      ensures ledger == Some(Readable(old(ledger)) + [JObj(TradeRecord(s, votes, caption, loggedAt))])
    {
      var history := Readable(ledger);
      history := history + [JObj(TradeRecord(s, votes, caption, loggedAt))];
      ledger := Some(history);
    }

    /** The tail of main (ai_engine.py:193-203). With two or more YES votes a duplicate is
        dropped and anything else becomes the last signal and is logged; with fewer the signal is
        only logged. */
    method Commit(s: Signal, votes: Votes, caption: string, loggedAt: string) returns (d: Decision)
      modifies this
      ensures CommitPost(old(lastSignal), old(ledger), lastSignal, ledger, s, votes, caption, loggedAt, d)
    {
      if YesCount(votes) >= 2 {
        if IsDuplicate(lastSignal, s) {
          return Duplicate;
        }
        lastSignal := Some(JObj(SignalFields(s)));
        SaveTradeResult(s, votes, caption, loggedAt);
        d := Accepted;
      } else {
        SaveTradeResult(s, votes, caption, loggedAt);
        d := Rejected;
      }
    }
  }

  /** Committing and then offering the same signal again with a majority is refused as a duplicate,
      and the second offer changes nothing. */
  method ReplayIsDuplicate(store: Store, s: Signal, votes: Votes, caption: string, loggedAt: string)
      returns (first: Decision, second: Decision)
    requires Confirmed(votes)
    modifies store
    ensures first != Rejected && second == Duplicate
    ensures first == Accepted ==> store.ledger == Some(Readable(old(store.ledger)) + [JObj(TradeRecord(s, votes, caption, loggedAt))])
    ensures first == Duplicate ==> store.ledger == old(store.ledger)
  {
    first := store.Commit(s, votes, caption, loggedAt);
    DuplicateIff(s, s);
    second := store.Commit(s, votes, caption, loggedAt);
  }
}
