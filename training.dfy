/** load_training_examples (ai_engine.py:33-48): labelled examples for the Cohere classifier,
    taken from the last 50 ledger records and followed by two fixed seed examples. */
module Training {
  import opened Wrappers
  import opened JsonValues
  import opened PyText
  import opened Candles
  import opened Labels

  const Window: nat := 50

  /** {"text": ..., "label": ...} (the label is `verdict` here); the text is whatever JSON the record's caption holds. */
  datatype Example = Example(text: Json, verdict: string)

  const Seeds: seq<Example> := [
    Example(JStr("Bullish BOS formed, clean OB, possible reversal setup."), Yes),
    Example(JStr("No clear structure, sideways price action."), No)
  ]

  /** What the loop body does with one ledger entry: append an example, skip it, or raise a
      TypeError that the surrounding `except` swallows, ending the loop. */
  datatype Step = Keep(example: Example) | Skip | Abort

  function StepOf(trade: Json): Step {
    match trade
    case JObj(fields) =>
      if "caption" in fields && "outcome" in fields then
        Keep(Example(fields["caption"], if fields["outcome"] == JStr(TpHit) then Yes else No))
      else Skip
    // `"caption" in s` is a substring test; indexing a string by "outcome" then raises.
    case JStr(s) => if Contains(s, "caption") && Contains(s, "outcome") then Abort else Skip
    // `"caption" in list` compares elements; indexing a list by "outcome" then raises.
    case JArr(items) => if JStr("caption") in items && JStr("outcome") in items then Abort else Skip
    // `in` on a number, a boolean or None raises.
    case _ => Abort
  }

  /** The examples gathered from `trades` in order, and whether the loop was ended by an exception. */
  function Scan(trades: seq<Json>): (seq<Example>, bool) {
    if trades == [] then ([], false)
    else
      var (examples, aborted) := Scan(trades[..|trades| - 1]);
      if aborted then (examples, true)
      else match StepOf(trades[|trades| - 1])
        case Keep(e) => (examples + [e], false)
        case Skip => (examples, false)
        case Abort => (examples, true)
  }

  /** The examples load_training_examples returns; `ledger` is None when trade_history.json is
      missing or is not valid JSON. */
  function TrainingExamples(ledger: Option<seq<Json>>): seq<Example> {
    (if ledger.Some? then Scan(Tail(ledger.value, Window)).0 else []) + Seeds
  }

  /** Once an exception has ended the loop, later entries change nothing. */
  lemma {:induction false} AbortIsFinal(trades: seq<Json>, i: nat)
    requires i <= |trades| && Scan(trades[..i]).1
    ensures Scan(trades) == Scan(trades[..i])
    decreases |trades| - i
  {
    if i < |trades| {
      assert trades[..i + 1][..i] == trades[..i];
      AbortIsFinal(trades, i + 1);
    } else {
      assert trades[..i] == trades;
    }
  }

  /** The for-loop of ai_engine.py:38-41 followed by the extend of lines 44-47. */
  method LoadTrainingExamples(ledger: Option<seq<Json>>) returns (examples: seq<Example>)
    ensures examples == TrainingExamples(ledger)
  {
    examples := [];
    if ledger.Some? {
      var trades := Tail(ledger.value, Window);
      var i := 0;
      while i < |trades|
        invariant 0 <= i <= |trades|
        invariant Scan(trades[..i]) == (examples, false)
      {
        assert trades[..i + 1][..i] == trades[..i];
        var step := StepOf(trades[i]);
        if step.Abort? {
          AbortIsFinal(trades, i + 1);
          break;
        }
        if step.Keep? {
          examples := examples + [step.example];
        }
        i := i + 1;
      }
      if i == |trades| {
        assert trades[..i] == trades;
      }
    }
    examples := examples + Seeds;
  }

  // ---------------------------------------------------------------------------------------
  // Properties of the examples.

  /** A ledger record qualifies when it is an object holding both a caption and an outcome. */
  predicate Qualifies(trade: Json) {
    trade.JObj? && "caption" in trade.fields && "outcome" in trade.fields
  }

  predicate IsTpHitRecord(trade: Json) {
    Qualifies(trade) && trade.fields["outcome"] == JStr(TpHit)
  }

  function CountWhereTp(trades: seq<Json>): nat {
    if trades == [] then 0
    else CountWhereTp(trades[..|trades| - 1]) + (if IsTpHitRecord(trades[|trades| - 1]) then 1 else 0)
  }

  function CountQualifying(trades: seq<Json>): nat {
    if trades == [] then 0
    else CountQualifying(trades[..|trades| - 1]) + (if Qualifies(trades[|trades| - 1]) then 1 else 0)
  }

  function CountLabel(examples: seq<Example>, verdict: string): nat {
    if examples == [] then 0
    else CountLabel(examples[..|examples| - 1], verdict) + (if examples[|examples| - 1].verdict == verdict then 1 else 0)
  }

  lemma CountLabelAppend(examples: seq<Example>, e: Example, verdict: string)
    ensures CountLabel(examples + [e], verdict) == CountLabel(examples, verdict) + (if e.verdict == verdict then 1 else 0)
  {
    assert (examples + [e])[..|examples|] == examples;
  }

  predicate AllObjects(trades: seq<Json>) {
    forall i :: 0 <= i < |trades| ==> trades[i].JObj?
  }

  /** On a ledger of JSON objects (what the engine writes) the loop never aborts; it yields one
      example per record holding caption and outcome, labelled "YES" exactly for the records whose
      outcome is "TP HIT" and "NO" for all others. */
  lemma {:induction false} ScanCounts(trades: seq<Json>)
    requires AllObjects(trades)
    ensures !Scan(trades).1
    ensures |Scan(trades).0| == CountQualifying(trades)
    ensures CountLabel(Scan(trades).0, Yes) == CountWhereTp(trades)
    ensures CountLabel(Scan(trades).0, No) == CountQualifying(trades) - CountWhereTp(trades)
  {
    if trades != [] {
      var init := trades[..|trades| - 1];
      ScanCounts(init);
      var t := trades[|trades| - 1];
      if Qualifies(t) {
        CountLabelAppend(Scan(init).0, StepOf(t).example, Yes);
        CountLabelAppend(Scan(init).0, StepOf(t).example, No);
      }
    }
  }

  /** The records the loop turns into examples, in ledger order. */
  function QualifyingRecords(trades: seq<Json>): (q: seq<Json>)
    ensures forall j :: 0 <= j < |q| ==> Qualifies(q[j])
  {
    if trades == [] then []
    else
      var t := trades[|trades| - 1];
      QualifyingRecords(trades[..|trades| - 1]) + (if Qualifies(t) then [t] else [])
  }

  /** On a ledger of JSON objects, the j-th example is built from the j-th record holding a caption
      and an outcome: its caption as text, labelled "YES" exactly when the outcome is "TP HIT". */
  lemma {:induction false} ScanRecords(trades: seq<Json>)
    requires AllObjects(trades)
    ensures !Scan(trades).1
    ensures var q, ex := QualifyingRecords(trades), Scan(trades).0;
      && |ex| == |q|
      && forall j :: 0 <= j < |q| ==>
           ex[j] == Example(q[j].fields["caption"], if q[j].fields["outcome"] == JStr(TpHit) then Yes else No)
  {
    if trades != [] {
      var init, t := trades[..|trades| - 1], trades[|trades| - 1];
      assert AllObjects(init) by {
        forall i | 0 <= i < |init| ensures init[i].JObj? {
          assert init[i] == trades[i];
        }
      }
      ScanRecords(init);
    }
  }

  /** At most one example per scanned entry. */
  lemma {:induction false} ScanBounded(trades: seq<Json>)
    ensures |Scan(trades).0| <= |trades|
  {
    if trades != [] {
      ScanBounded(trades[..|trades| - 1]);
    }
  }

  /** The result always ends with the two seed examples and holds at most 52 examples. */
  lemma ExamplesShape(ledger: Option<seq<Json>>)
    ensures var r := TrainingExamples(ledger);
      2 <= |r| <= Window + 2 && r[|r| - 2..] == Seeds
  {
    if ledger.Some? {
      ScanBounded(Tail(ledger.value, Window));
    }
  }

  /** Only the last 50 records matter: older records never reach the classifier. */
  lemma OnlyLastFifty(older: seq<Json>, recent: seq<Json>)
    requires |recent| >= Window
    ensures TrainingExamples(Some(older + recent)) == TrainingExamples(Some(recent))
  {
    assert Tail(older + recent, Window) == Tail(recent, Window);
  }

  /** An unreadable ledger yields exactly the two seed examples. */
  lemma UnreadableLedger()
    ensures TrainingExamples(None) == Seeds
  {
  }

  /** An entry that is a number stops the scan: examples gathered before it are kept, none after. */
  lemma NumberStopsScan(before: seq<Json>, x: real, after: seq<Json>)
    requires !Scan(before).1
    ensures Scan(before + [JNum(x)] + after) == (Scan(before).0, true)
  {
    var all := before + [JNum(x)] + after;
    assert all[..|before| + 1][..|before|] == before;
    AbortIsFinal(all, |before| + 1);
  }
}
