/** The three voters of ai_engine.py and the 2-of-3 majority rule (ai_engine.py:62-68, 184-193). */
module Voters {
  import opened Wrappers
  import opened Candles
  import opened Detector
  import opened Labels

  /** The votes dict of ai_engine.py:187. The Cohere vote is whatever label the classifier
      returned ("NO" on any exception); it is an input here. */
  datatype Votes = Votes(cohere: string, deepshik: string, donut: string)

  /** deepshik_vote: YES for a present signal whose entry is at least 50 from the stop and whose
      entry candle traded more than the minimum order-block volume. */
  function DeepshikVote(signal: Option<Signal>): (r: string)
    ensures r == Yes || r == No
  {
    if signal.Some? && Abs(signal.value.entry - signal.value.sl) >= 50.0
       && signal.value.setup.entryCandle.volume > MinObVolume
    then Yes else No
  }

  /** donut_decision: a placeholder that always votes YES, whatever the image. */
  function DonutDecision(imagePath: string): (r: string)
    ensures r == Yes
  {
    Yes
  }

  /** `list(votes.values()).count("YES")` */
  function YesCount(v: Votes): (r: nat)
    ensures r <= 3
  {
    (if v.cohere == Yes then 1 else 0) + (if v.deepshik == Yes then 1 else 0) + (if v.donut == Yes then 1 else 0)
  }

  /** The confirmation test of ai_engine.py:193. */
  predicate Confirmed(v: Votes) {
    YesCount(v) >= 2
  }

  /** Confirmation holds exactly when some two of the three voters say exactly "YES". */
  lemma ConfirmedIffTwoAgree(v: Votes)
    ensures Confirmed(v) <==>
      ((v.cohere == Yes && v.deepshik == Yes) || (v.cohere == Yes && v.donut == Yes) || (v.deepshik == Yes && v.donut == Yes))
  {
  }

  /** With the placeholder donut vote, a signal is confirmed exactly when Cohere or Deepshik says YES. */
  lemma ConfirmedWithDonut(cohere: string, deepshik: string, imagePath: string)
    ensures Confirmed(Votes(cohere, deepshik, DonutDecision(imagePath))) <==> (cohere == Yes || deepshik == Yes)
  {
  }

  /** The boundary cases: two YES votes of three confirm, one does not. */
  lemma MajorityExamples()
    ensures Confirmed(Votes(Yes, Yes, No))
    ensures !Confirmed(Votes(Yes, No, No))
    ensures !Confirmed(Votes("yes", Yes, No))
  {
  }

  /** For a signal the detector produced, the Deepshik vote is YES exactly when the entry candle's
      range plus half the ATR reaches 50 and its volume exceeds 50: the stop distance of both
      directions is that sum. */
  lemma DeepshikOnDetected(cs: seq<Candle>, now: string)
    requires DetectTrade(cs, now).Some?
    ensures var last := cs[|cs| - 1];
      DeepshikVote(DetectTrade(cs, now)) == Yes <==>
        (Abs((last.high - last.low) + Atr(cs) * 0.5) >= 50.0 && last.volume > MinObVolume)
  {
    StopDistance(cs, now);
  }
}
