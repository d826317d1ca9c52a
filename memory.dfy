/** ai_memory.py: per-voter accuracy over resolved trades (analyze_ai_performance) and the
    text preparation of load_trade_history. */
module Memory {
  import opened Wrappers
  import opened JsonValues
  import opened PyText
  import opened Labels

  /** The only keys analyze_ai_performance reads votes from, at the top level of a record. */
  const AiKeys: seq<string> := ["chatgpt", "grok", "deepshik"]

  /** The names the counters are filed under (`ai.capitalize()`). */
  const VoterNames: set<string> := {"Chatgpt", "Grok", "Deepshik"}

  /** One counter record of the defaultdict: {"TP HIT": .., "SL HIT": .., "Total": ..}. */
  datatype Stats = Stats(tpHit: nat, slHit: nat, total: nat)

  /** The exception the loop can raise: `.get` on a non-object entry, `.upper()` on a non-string vote. */
  datatype PyError = AttributeError

  // ---------------------------------------------------------------------------------------
  // load_trade_history (ai_memory.py:9-18): the text handling. Parsing the JSON is not modelled.

  /** str.rstrip(): drop trailing whitespace. */
  function StripEnd(s: string): (r: string)
    ensures |r| <= |s| && r == s[..|r|]
    ensures r == [] || !IsSpace(r[|r| - 1])
    ensures forall i :: |r| <= i < |s| ==> IsSpace(s[i])
  {
    if s != [] && IsSpace(s[|s| - 1]) then StripEnd(s[..|s| - 1]) else s
  }

  /** str.lstrip(): drop leading whitespace. */
  function StripStart(s: string): (r: string)
    ensures |r| <= |s| && r == s[|s| - |r|..]
    ensures r == [] || !IsSpace(r[0])
    ensures forall i :: 0 <= i < |s| - |r| ==> IsSpace(s[i])
  {
    if s != [] && IsSpace(s[0]) then StripStart(s[1..]) else s
  }

  /** str.rstrip(","): drop every trailing comma. */
  function StripCommas(s: string): (r: string)
    ensures |r| <= |s| && r == s[..|r|]
    ensures r == [] || r[|r| - 1] != ','
    ensures forall i :: |r| <= i < |s| ==> s[i] == ','
  {
    if s != [] && s[|s| - 1] == ',' then StripCommas(s[..|s| - 1]) else s
  }

  /** `f.read().strip().rstrip(",")` */
  function CleanHistoryText(text: string): string {
    StripCommas(StripStart(StripEnd(text)))
  }

  /** What load_trade_history hands to json.loads: None stands for its early `return []` (the
      file is absent, or nothing is left after cleaning); otherwise the cleaned text wrapped in
      brackets. */
  function PrepareHistoryText(file: Option<string>): (r: Option<string>)
    ensures file.None? ==> r.None?
    ensures r.Some? ==> var w := r.value;
      && |w| >= 3 && w[0] == '[' && w[|w| - 1] == ']'
      && !IsSpace(w[1]) && w[|w| - 2] != ','
  {
    if file.None? then None
    else
      var raw := CleanHistoryText(file.value);
      if raw == [] then None else Some("[" + raw + "]")
  }

  /** Where the cleaned text sits in the file. */
  lemma CleanedSpan(text: string) returns (a: nat, b: nat)
    ensures a <= b <= |text| && CleanHistoryText(text) == text[a..b]
    ensures forall i :: 0 <= i < a ==> IsSpace(text[i])
    ensures forall i :: b <= i < |text| ==> IsSpace(text[i]) || text[i] == ','
  {
    var e := StripEnd(text);
    var m := StripStart(e);
    var raw := StripCommas(m);
    a := |e| - |m|;
    b := a + |raw|;
    Span(text, e, m, raw);
  }

  /** CleanedSpan for any three successive cuts of the kinds the strips make. */
  lemma Span(text: string, e: string, m: string, raw: string)
    requires |e| <= |text| && e == text[..|e|] && forall i :: |e| <= i < |text| ==> IsSpace(text[i])
    requires |m| <= |e| && m == e[|e| - |m|..] && forall i :: 0 <= i < |e| - |m| ==> IsSpace(e[i])
    requires |raw| <= |m| && raw == m[..|raw|] && forall i :: |raw| <= i < |m| ==> m[i] == ','
    ensures var a := |e| - |m|;
      && raw == text[a..a + |raw|]
      && (forall i :: 0 <= i < a ==> IsSpace(text[i]))
      && (forall i :: a + |raw| <= i < |text| ==> IsSpace(text[i]) || text[i] == ',')
  {
    SliceOfSlices(text, e, m, raw);
    CutBefore(text, e, m);
    CutAfter(text, e, m, raw);
  }

  lemma SliceOfSlices(text: string, e: string, m: string, raw: string)
    requires |e| <= |text| && e == text[..|e|]
    requires |m| <= |e| && m == e[|e| - |m|..]
    requires |raw| <= |m| && raw == m[..|raw|]
    ensures raw == text[|e| - |m|..|e| - |m| + |raw|]
  {
    var a := |e| - |m|;
    forall i | 0 <= i < |raw| ensures raw[i] == text[a + i] {
      assert raw[i] == m[i] == e[a + i];
    }
  }

  lemma CutBefore(text: string, e: string, m: string)
    requires |e| <= |text| && e == text[..|e|]
    requires |m| <= |e| && forall i :: 0 <= i < |e| - |m| ==> IsSpace(e[i])
    ensures forall i :: 0 <= i < |e| - |m| ==> IsSpace(text[i])
  {
    forall i | 0 <= i < |e| - |m| ensures IsSpace(text[i]) {
      assert text[i] == e[i];
    }
  }

  lemma CutAfter(text: string, e: string, m: string, raw: string)
    requires |e| <= |text| && e == text[..|e|] && forall i :: |e| <= i < |text| ==> IsSpace(text[i])
    requires |m| <= |e| && m == e[|e| - |m|..]
    requires |raw| <= |m| && forall i :: |raw| <= i < |m| ==> m[i] == ','
    ensures forall i :: |e| - |m| + |raw| <= i < |text| ==> IsSpace(text[i]) || text[i] == ','
  {
    var a := |e| - |m|;
    forall i | a + |raw| <= i < |text| ensures IsSpace(text[i]) || text[i] == ',' {
      if i < |e| {
        assert text[i] == e[i] == m[i - a];
      }
    }
  }

  /** The wrapped text is a contiguous piece of the file; everything cut before it is whitespace,
      everything cut after it is whitespace or commas. */
  lemma PreparedIsInfix(text: string)
    requires PrepareHistoryText(Some(text)).Some?
    ensures var w := PrepareHistoryText(Some(text)).value;
      exists a, b :: 0 <= a <= b <= |text| && w == "[" + text[a..b] + "]"
        && (forall i :: 0 <= i < a ==> IsSpace(text[i]))
        && (forall i :: b <= i < |text| ==> IsSpace(text[i]) || text[i] == ',')
  {
    var a, b := CleanedSpan(text);
    assert PrepareHistoryText(Some(text)).value == "[" + text[a..b] + "]";
  }

  /** A file holding only whitespace is treated as an empty history; and whenever the history is
      treated as empty, the file held nothing but whitespace and commas. */
  lemma BlankFileIsEmpty(text: string)
    ensures (forall i :: 0 <= i < |text| ==> IsSpace(text[i])) ==> PrepareHistoryText(Some(text)).None?
    ensures PrepareHistoryText(Some(text)).None? ==>
      forall i :: 0 <= i < |text| ==> IsSpace(text[i]) || text[i] == ','
  {
    var e := StripEnd(text);
    var m := StripStart(e);
    if PrepareHistoryText(Some(text)).None? {
      assert forall i :: 0 <= i < |m| ==> m[i] == ',';
      forall i | 0 <= i < |text|
        ensures IsSpace(text[i]) || text[i] == ','
      {
        if i < |e| && i >= |e| - |m| {
          assert text[i] == e[i] == m[i - (|e| - |m|)];
        }
      }
    }
  }

  // ---------------------------------------------------------------------------------------
  // analyze_ai_performance (ai_memory.py:20-46)

  /** defaultdict lookup: a voter not yet seen has all counters at 0. */
  function Lookup(stats: map<string, Stats>, name: string): Stats {
    if name in stats then stats[name] else Stats(0, 0, 0)
  }

  /** `ai_stats[name][outcome] += 1; ai_stats[name]["Total"] += 1` */
  function Bump(st: Stats, outcome: string): Stats {
    if outcome == TpHit then Stats(st.tpHit + 1, st.slHit, st.total + 1)
    else Stats(st.tpHit, st.slHit + 1, st.total + 1)
  }

  /** `trade.get(ai, "").upper()`: a missing key reads as "", a non-string value raises. */
  function VoteText(fields: map<string, Json>, key: string): Result<string, PyError> {
    if key !in fields then Success("")
    else if fields[key].JStr? then Success(Upper(fields[key].s))
    else Failure(AttributeError)
  }

  /** The record's outcome when it is exactly "TP HIT" or "SL HIT"; any other value, or none, is skipped. */
  function ResolvedOutcome(fields: map<string, Json>): Option<string> {
    var o := Get(fields, "outcome");
    if o == Some(JStr(TpHit)) then Some(TpHit)
    else if o == Some(JStr(SlHit)) then Some(SlHit)
    else None
  }

  /** The inner loop over `keys` (a prefix of AiKeys) for one resolved record. */
  function CountVotes(stats: map<string, Stats>, fields: map<string, Json>, outcome: string, keys: seq<string>)
    : Result<map<string, Stats>, PyError>
  {
    if keys == [] then Success(stats)
    else match CountVotes(stats, fields, outcome, keys[..|keys| - 1])
      case Failure(e) => Failure(e)
      case Success(st) =>
        var ai := keys[|keys| - 1];
        match VoteText(fields, ai)
        case Failure(e) => Failure(e)
        case Success(text) =>
          if Contains(text, Yes) then
            var name := Capitalize(ai);
            Success(st[name := Bump(Lookup(st, name), outcome)])
          else Success(st)
  }

  /** One pass of the outer loop. */
  function TallyTrade(stats: map<string, Stats>, trade: Json): Result<map<string, Stats>, PyError> {
    match trade
    case JObj(fields) =>
      (match ResolvedOutcome(fields)
       case None => Success(stats)
       case Some(o) => CountVotes(stats, fields, o, AiKeys))
    case _ => Failure(AttributeError)
  }

  /** The counters after the outer loop over `history`, or the exception it raised. */
  function Tally(history: seq<Json>): Result<map<string, Stats>, PyError> {
    if history == [] then Success(map[])
    else match Tally(history[..|history| - 1])
      case Failure(e) => Failure(e)
      case Success(st) => TallyTrade(st, history[|history| - 1])
  }

  /** Python's round(x, 2), taken as round-half-to-even on the exact value. */
  function Round2(x: real): (r: real)
    ensures (r * 100.0).Floor as real == r * 100.0
    ensures -0.005 <= r - x <= 0.005
    ensures 0.0 <= x <= 1.0 ==> 0.0 <= r <= 1.0
  {
    var k := (x * 100.0).Floor;
    var f := x * 100.0 - k as real;
    var n := if f > 0.5 then k + 1 else if f < 0.5 then k else if k % 2 == 0 then k else k + 1;
    assert (n as real * 100.0 / 100.0).Floor == n;
    n as real / 100.0
  }

  /** The weight loop's body (ai_memory.py:39-44). */
  function Weight(st: Stats): real {
    if st.total == 0 then 0.5 else Round2(st.tpHit as real / st.total as real)
  }

  function Weights(stats: map<string, Stats>): map<string, real> {
    map k | k in stats :: Weight(stats[k])
  }

  /** What analyze_ai_performance returns for an already parsed history, or the exception it raises. */
  function Analysis(history: seq<Json>): Result<map<string, real>, PyError> {
    match Tally(history)
    case Success(st) => Success(Weights(st))
    case Failure(e) => Failure(e)
  }

  lemma {:induction false} CountFailureIsFinal(stats: map<string, Stats>, fields: map<string, Json>, outcome: string,
                                              keys: seq<string>, j: nat)
    requires j <= |keys| && CountVotes(stats, fields, outcome, keys[..j]).Failure?
    ensures CountVotes(stats, fields, outcome, keys) == CountVotes(stats, fields, outcome, keys[..j])
    decreases |keys| - j
  {
    if j < |keys| {
      assert keys[..j + 1][..j] == keys[..j];
      CountFailureIsFinal(stats, fields, outcome, keys, j + 1);
    } else {
      assert keys[..j] == keys;
    }
  }

  lemma {:induction false} TallyFailureIsFinal(history: seq<Json>, i: nat)
    requires i <= |history| && Tally(history[..i]).Failure?
    ensures Tally(history) == Tally(history[..i])
    decreases |history| - i
  {
    if i < |history| {
      assert history[..i + 1][..i] == history[..i];
      TallyFailureIsFinal(history, i + 1);
    } else {
      assert history[..i] == history;
    }
  }

  method AnalyzeAiPerformance(history: seq<Json>) returns (r: Result<map<string, real>, PyError>)
    ensures r == Analysis(history)
  {
    var stats: map<string, Stats> := map[];
    var i := 0;
    while i < |history|
      invariant 0 <= i <= |history|
      invariant Tally(history[..i]) == Success(stats)
    {
      assert history[..i + 1][..i] == history[..i];
      var trade := history[i];
      if !trade.JObj? {
        TallyFailureIsFinal(history, i + 1);
        return Failure(AttributeError);
      }
      var fields := trade.fields;
      var outcome := Get(fields, "outcome");
      if outcome != Some(JStr(TpHit)) && outcome != Some(JStr(SlHit)) {
        i := i + 1;
        continue;
      }
      var o := outcome.value.s;
      var before := stats;
      var j := 0;
      while j < |AiKeys|
        invariant 0 <= j <= |AiKeys|
        invariant CountVotes(before, fields, o, AiKeys[..j]) == Success(stats)
      {
        assert AiKeys[..j + 1][..j] == AiKeys[..j];
        var ai := AiKeys[j];
        var text := "";
        if ai in fields {
          if !fields[ai].JStr? {
            CountFailureIsFinal(before, fields, o, AiKeys, j + 1);
            TallyFailureIsFinal(history, i + 1);
            return Failure(AttributeError);
          }
          text := Upper(fields[ai].s);
        }
        if Contains(text, Yes) {
          var name := Capitalize(ai);
          stats := stats[name := Bump(Lookup(stats, name), o)];
        }
        j := j + 1;
      }
      assert AiKeys[..j] == AiKeys;
      i := i + 1;
    }
    assert history[..i] == history;

    var weights := ComputeWeights(stats);
    r := Success(weights);
  }

  /** The weight loop of ai_memory.py:37-44, over the counters in any order. */
  method ComputeWeights(stats: map<string, Stats>) returns (weights: map<string, real>)
    ensures weights == Weights(stats)
  {
    weights := map[];
    var remaining := stats.Keys;
    while remaining != {}
      invariant remaining <= stats.Keys
      invariant forall k :: k in weights <==> k in stats && k !in remaining
      invariant forall k :: k in weights ==> weights[k] == Weight(stats[k])
      decreases remaining
    {
      var ai :| ai in remaining;
      var st := stats[ai];
      if st.total == 0 {
        weights := weights[ai := 0.5];
      } else {
        weights := weights[ai := Round2(st.tpHit as real / st.total as real)];
      }
      remaining := remaining - {ai};
    }
    assert weights == Weights(stats);
  }

  // ---------------------------------------------------------------------------------------
  // Properties of the tally and the weights.

  /** The `ai` vote of a record reads as YES: a string whose upper-cased text contains "YES". */
  predicate VotedYes(fields: map<string, Json>, ai: string) {
    VoteText(fields, ai).Success? && Contains(VoteText(fields, ai).value, Yes)
  }

  /** Reference count: records of `history` resolved with `outcome` on which `ai` voted YES. */
  function YesVotes(history: seq<Json>, ai: string, outcome: string): nat {
    if history == [] then 0
    else
      var t := history[|history| - 1];
      YesVotes(history[..|history| - 1], ai, outcome)
        + (if t.JObj? && ResolvedOutcome(t.fields) == Some(outcome) && VotedYes(t.fields, ai) then 1 else 0)
  }

  /** Every counter is filed under a known voter name, its two outcome counts add up to its total,
      and its total is at least 1. */
  predicate WellCounted(stats: map<string, Stats>) {
    forall k :: k in stats ==>
      k in VoterNames && stats[k].tpHit + stats[k].slHit == stats[k].total && stats[k].total >= 1
  }

  lemma VoterNamesOfKeys()
    ensures Capitalize(AiKeys[0]) == "Chatgpt"
    ensures Capitalize(AiKeys[1]) == "Grok"
    ensures Capitalize(AiKeys[2]) == "Deepshik"
  {
    CapitalizeKey("chatgpt", "Chatgpt");
    CapitalizeKey("grok", "Grok");
    CapitalizeKey("deepshik", "Deepshik");
  }

  /** Capitalising a lower-case key only upper-cases its first letter. */
  lemma CapitalizeKey(key: string, name: string)
    requires |key| > 0 && 'a' <= key[0] <= 'z' && forall i :: 0 < i < |key| ==> !('A' <= key[i] <= 'Z')
    requires |name| == |key| && name[0] as int == key[0] as int - 32 && name[1..] == key[1..]
    ensures Capitalize(key) == name
  {
    var r := Capitalize(key);
    assert r[0] == name[0];
    forall i | 0 < i < |key| ensures r[i] == name[i] {
      assert name[i] == name[1..][i - 1] == key[i];
    }
  }

  /** The three voter keys are filed under three distinct names. */
  lemma VoterNamesDistinct()
    ensures forall m, n :: 0 <= m < n < |AiKeys| ==> Capitalize(AiKeys[m]) != Capitalize(AiKeys[n])
    ensures forall m :: 0 <= m < |AiKeys| ==> Capitalize(AiKeys[m]) in VoterNames
  {
    VoterNamesOfKeys();
  }

  /** One step of the inner loop: the counter of key j - 1 is bumped when its vote reads as YES. */
  lemma CountVotesStep(stats: map<string, Stats>, fields: map<string, Json>, outcome: string, j: nat)
    requires 0 < j <= |AiKeys|
    requires CountVotes(stats, fields, outcome, AiKeys[..j]).Success?
    ensures CountVotes(stats, fields, outcome, AiKeys[..j - 1]).Success?
    ensures var st0, st := CountVotes(stats, fields, outcome, AiKeys[..j - 1]).value,
                           CountVotes(stats, fields, outcome, AiKeys[..j]).value;
      var name := Capitalize(AiKeys[j - 1]);
      st == if VotedYes(fields, AiKeys[j - 1]) then st0[name := Bump(Lookup(st0, name), outcome)] else st0
  {
    assert AiKeys[..j][..j - 1] == AiKeys[..j - 1];
  }

  /** The inner loop keeps the counters well formed. */
  lemma {:induction false} CountVotesWellCounted(stats: map<string, Stats>, fields: map<string, Json>, outcome: string,
                                                j: nat)
    requires j <= |AiKeys| && (outcome == TpHit || outcome == SlHit)
    requires CountVotes(stats, fields, outcome, AiKeys[..j]).Success?
    requires WellCounted(stats)
    ensures WellCounted(CountVotes(stats, fields, outcome, AiKeys[..j]).value)
  {
    if j > 0 {
      CountVotesStep(stats, fields, outcome, j);
      CountVotesWellCounted(stats, fields, outcome, j - 1);
      VoterNamesDistinct();
      var st0 := CountVotes(stats, fields, outcome, AiKeys[..j - 1]).value;
      BumpWellCounted(st0, Capitalize(AiKeys[j - 1]), outcome);
    }
  }

  /** Bumping a known voter's counter for a resolved outcome keeps the counters well formed. */
  lemma BumpWellCounted(st: map<string, Stats>, name: string, outcome: string)
    requires WellCounted(st) && name in VoterNames && (outcome == TpHit || outcome == SlHit)
    ensures WellCounted(st[name := Bump(Lookup(st, name), outcome)])
  {
  }

  /** The inner loop over the first j keys bumps exactly the counters of the voters among them whose
      vote reads as YES. */
  lemma {:induction false} CountVotesEffect(stats: map<string, Stats>, fields: map<string, Json>, outcome: string,
                                           j: nat)
    requires j <= |AiKeys|
    requires CountVotes(stats, fields, outcome, AiKeys[..j]).Success?
    ensures forall m :: 0 <= m < |AiKeys| ==>
      Lookup(CountVotes(stats, fields, outcome, AiKeys[..j]).value, Capitalize(AiKeys[m])) ==
        if m < j && VotedYes(fields, AiKeys[m]) then Bump(Lookup(stats, Capitalize(AiKeys[m])), outcome)
        else Lookup(stats, Capitalize(AiKeys[m]))
  {
    if j > 0 {
      CountVotesStep(stats, fields, outcome, j);
      CountVotesEffect(stats, fields, outcome, j - 1);
      VoterNamesDistinct();
    }
  }

  /** The tally agrees with the reference count: for each of the three voters, the TP HIT and SL HIT
      counters are the numbers of resolved records with that outcome on which it voted YES, the
      total is their sum, and no other name ever gets a counter. */
  lemma {:induction false} TallyMatchesCounts(history: seq<Json>, st: map<string, Stats>)
    requires Tally(history) == Success(st)
    ensures WellCounted(st)
    ensures forall m :: 0 <= m < |AiKeys| ==>
      var tp, sl := YesVotes(history, AiKeys[m], TpHit), YesVotes(history, AiKeys[m], SlHit);
      Lookup(st, Capitalize(AiKeys[m])) == Stats(tp, sl, tp + sl)
  {
    TallyWellCounted(history, st);
    forall m | 0 <= m < |AiKeys| {
      TallyCountsFor(history, st, m);
    }
  }

  lemma {:induction false} TallyWellCounted(history: seq<Json>, st: map<string, Stats>)
    requires Tally(history) == Success(st)
    ensures WellCounted(st)
  {
    if history != [] {
      var st0 := Tally(history[..|history| - 1]).value;
      TallyWellCounted(history[..|history| - 1], st0);
      TradeWellCounted(st0, history[|history| - 1], st);
    }
  }

  /** One record of the outer loop keeps the counters well formed. */
  lemma TradeWellCounted(st0: map<string, Stats>, t: Json, st: map<string, Stats>)
    requires TallyTrade(st0, t) == Success(st) && WellCounted(st0)
    ensures WellCounted(st)
  {
    if ResolvedOutcome(t.fields).Some? {
      assert AiKeys[..|AiKeys|] == AiKeys;
      CountVotesWellCounted(st0, t.fields, ResolvedOutcome(t.fields).value, |AiKeys|);
    }
  }

  /** The counters of the m-th voter after the whole history. */
  lemma {:induction false} TallyCountsFor(history: seq<Json>, st: map<string, Stats>, m: nat)
    requires Tally(history) == Success(st) && m < |AiKeys|
    ensures var tp, sl := YesVotes(history, AiKeys[m], TpHit), YesVotes(history, AiKeys[m], SlHit);
      Lookup(st, Capitalize(AiKeys[m])) == Stats(tp, sl, tp + sl)
  {
    if history != [] {
      var st0 := Tally(history[..|history| - 1]).value;
      TallyCountsFor(history[..|history| - 1], st0, m);
      TradeCountsFor(history, st0, st, m);
    }
  }

  /** One record of the outer loop keeps the m-th voter's counters in step with the reference count. */
  lemma TradeCountsFor(history: seq<Json>, st0: map<string, Stats>, st: map<string, Stats>, m: nat)
    requires history != [] && TallyTrade(st0, history[|history| - 1]) == Success(st) && m < |AiKeys|
    requires var init := history[..|history| - 1];
      var tp, sl := YesVotes(init, AiKeys[m], TpHit), YesVotes(init, AiKeys[m], SlHit);
      Lookup(st0, Capitalize(AiKeys[m])) == Stats(tp, sl, tp + sl)
    ensures var tp, sl := YesVotes(history, AiKeys[m], TpHit), YesVotes(history, AiKeys[m], SlHit);
      Lookup(st, Capitalize(AiKeys[m])) == Stats(tp, sl, tp + sl)
  {
    var fields := history[|history| - 1].fields;
    if ResolvedOutcome(fields).Some? {
      var o := ResolvedOutcome(fields).value;
      assert AiKeys[..|AiKeys|] == AiKeys;
      CountVotesEffect(st0, fields, o, |AiKeys|);
    }
  }

  /** A record whose outcome is neither exactly "TP HIT" nor exactly "SL HIT" changes nothing. */
  lemma UnresolvedIgnored(history: seq<Json>, fields: map<string, Json>)
    requires Get(fields, "outcome") != Some(JStr(TpHit)) && Get(fields, "outcome") != Some(JStr(SlHit))
    ensures Tally(history + [JObj(fields)]) == Tally(history)
  {
    assert (history + [JObj(fields)])[..|history|] == history;
  }

  /** Only the outcome and the three voter keys of a record are read. */
  lemma {:induction false} OnlyVoterKeysRead(stats: map<string, Stats>, f: map<string, Json>, g: map<string, Json>,
                                            outcome: string, j: nat)
    requires j <= |AiKeys|
    requires forall m :: 0 <= m < |AiKeys| ==> Get(f, AiKeys[m]) == Get(g, AiKeys[m])
    ensures CountVotes(stats, f, outcome, AiKeys[..j]) == CountVotes(stats, g, outcome, AiKeys[..j])
  {
    if j > 0 {
      assert AiKeys[..j][..j - 1] == AiKeys[..j - 1];
      OnlyVoterKeysRead(stats, f, g, outcome, j - 1);
      assert Get(f, AiKeys[j - 1]) == Get(g, AiKeys[j - 1]);
    }
  }

  /** Two records that agree on "outcome" and on the three voter keys are tallied alike. */
  lemma SameVoterKeysSameTally(stats: map<string, Stats>, f: map<string, Json>, g: map<string, Json>)
    requires Get(f, "outcome") == Get(g, "outcome")
    requires forall m :: 0 <= m < |AiKeys| ==> Get(f, AiKeys[m]) == Get(g, AiKeys[m])
    ensures TallyTrade(stats, JObj(f)) == TallyTrade(stats, JObj(g))
  {
    if ResolvedOutcome(f).Some? {
      OnlyVoterKeysRead(stats, f, g, ResolvedOutcome(f).value, |AiKeys|);
      assert AiKeys[..|AiKeys|] == AiKeys;
    }
  }

  /** An entry that makes the loop raise: not an object, or a resolved record with a voter key
      holding something other than a string. */
  predicate Raises(trade: Json) {
    !trade.JObj? ||
    (ResolvedOutcome(trade.fields).Some? &&
     exists m :: 0 <= m < |AiKeys| && AiKeys[m] in trade.fields && !trade.fields[AiKeys[m]].JStr?)
  }

  lemma {:induction false} CountVotesFailsIff(stats: map<string, Stats>, fields: map<string, Json>, outcome: string, j: nat)
    requires j <= |AiKeys|
    ensures CountVotes(stats, fields, outcome, AiKeys[..j]).Failure? <==>
      exists m :: 0 <= m < j && AiKeys[m] in fields && !fields[AiKeys[m]].JStr?
  {
    if j > 0 {
      assert AiKeys[..j][..j - 1] == AiKeys[..j - 1];
      CountVotesFailsIff(stats, fields, outcome, j - 1);
    }
  }

  /** analyze_ai_performance raises exactly when some entry of the history raises. */
  lemma {:induction false} TallyFailsIff(history: seq<Json>)
    ensures Tally(history).Failure? <==> exists i :: 0 <= i < |history| && Raises(history[i])
  {
    if history != [] {
      var init, t := history[..|history| - 1], history[|history| - 1];
      TallyFailsIff(init);
      if Tally(init).Success? && t.JObj? && ResolvedOutcome(t.fields).Some? {
        CountVotesFailsIff(Tally(init).value, t.fields, ResolvedOutcome(t.fields).value, |AiKeys|);
        assert AiKeys[..|AiKeys|] == AiKeys;
      }
      if exists i :: 0 <= i < |init| && Raises(init[i]) {
        var i :| 0 <= i < |init| && Raises(init[i]);
        assert history[i] == init[i];
      }
      if exists i :: 0 <= i < |history| && Raises(history[i]) {
        var i :| 0 <= i < |history| && Raises(history[i]);
        if i < |init| {
          assert init[i] == history[i];
        }
      }
    }
  }

  /** The weights: a voter appears exactly when it has at least one counted vote, so the 0.5 default
      is never used; each weight is TP/Total rounded to two places and lies in [0, 1]; no name
      other than the three capitalised voter keys appears. */
  lemma WeightsFromCounts(history: seq<Json>)
    requires Analysis(history).Success?
    ensures Analysis(history).value.Keys <= VoterNames
    ensures forall m :: 0 <= m < |AiKeys| ==>
      var w, name := Analysis(history).value, Capitalize(AiKeys[m]);
      var tp, sl := YesVotes(history, AiKeys[m], TpHit), YesVotes(history, AiKeys[m], SlHit);
      && (name in w <==> tp + sl >= 1)
      && (name in w ==> w[name] == Round2(tp as real / (tp + sl) as real) && 0.0 <= w[name] <= 1.0)
  {
    var st := Tally(history).value;
    TallyMatchesCounts(history, st);
    WeightsOfVoters(st);
  }

  /** WeightOfCounter for the three voter names, and no other name has a weight. */
  lemma WeightsOfVoters(st: map<string, Stats>)
    requires WellCounted(st)
    ensures Weights(st).Keys <= VoterNames
    ensures forall m :: 0 <= m < |AiKeys| ==>
      var w, c := Weights(st), Lookup(st, Capitalize(AiKeys[m]));
      && (Capitalize(AiKeys[m]) in w <==> c.total >= 1)
      && (Capitalize(AiKeys[m]) in w ==>
            w[Capitalize(AiKeys[m])] == Round2(c.tpHit as real / c.total as real) && 0.0 <= w[Capitalize(AiKeys[m])] <= 1.0)
  {
    forall m | 0 <= m < |AiKeys| {
      WeightOfCounter(st, Capitalize(AiKeys[m]));
    }
  }

  /** A name has a weight exactly when it has a counter, and the weight is its TP ratio rounded. */
  lemma WeightOfCounter(st: map<string, Stats>, name: string)
    requires WellCounted(st)
    ensures var w, c := Weights(st), Lookup(st, name);
      && (name in w <==> c.total >= 1)
      && (name in w ==> w[name] == Round2(c.tpHit as real / c.total as real) && 0.0 <= w[name] <= 1.0)
  {
    if name in st {
      RatioInUnit(st[name].tpHit, st[name].total);
    }
  }

  lemma RatioInUnit(a: nat, b: nat)
    requires a <= b && b >= 1
    ensures 0.0 <= a as real / b as real <= 1.0
  {
    var x := a as real / b as real;
    assert x * (b as real) == a as real;
    assert (1.0 - x) * (b as real) == (b - a) as real;
  }

  /** Two winning trades and one losing one give 0.67. */
  lemma TwoOfThreeWeight()
    ensures Weight(Stats(2, 1, 3)) == 0.67
  {
    assert 66.0 <= 2.0 / 3.0 * 100.0 < 67.0;
  }

  /** The history file the engine writes is a JSON list; wrapped once more in brackets it parses to a
      list holding that list, and the first `.get` on it raises. */
  lemma WrappedLedgerRaises(entries: seq<Json>)
    ensures Analysis([JArr(entries)]) == Failure(AttributeError)
  {
    assert [JArr(entries)][..0] == [];
    assert Tally([JArr(entries)]) == Failure(AttributeError);
  }

  /** A record without any of the three voter keys at its top level. */
  predicate LacksVoterKeys(trade: Json) {
    trade.JObj? && forall m :: 0 <= m < |AiKeys| ==> AiKeys[m] !in trade.fields
  }

  /** A history of records without top-level voter keys yields no counters at all, whatever their
      outcomes say. */
  lemma {:induction false} NoVoterKeysNoCounters(history: seq<Json>)
    requires forall i :: 0 <= i < |history| ==> LacksVoterKeys(history[i])
    ensures Tally(history) == Success(map[])
  {
    if history != [] {
      var init, t := history[..|history| - 1], history[|history| - 1];
      NoVoterKeysNoCounters(init);
      if ResolvedOutcome(t.fields).Some? {
        assert AiKeys[..|AiKeys|] == AiKeys;
        CountVotesFailsIff(map[], t.fields, ResolvedOutcome(t.fields).value, |AiKeys|);
        CountVotesEffect(map[], t.fields, ResolvedOutcome(t.fields).value, |AiKeys|);
        CountVotesWellCounted(map[], t.fields, ResolvedOutcome(t.fields).value, |AiKeys|);
        var st := Tally(history).value;
        VoterNamesOfKeys();
        assert !VotedYes(t.fields, AiKeys[0]) && !VotedYes(t.fields, AiKeys[1]) && !VotedYes(t.fields, AiKeys[2]);
        assert Lookup(st, "Chatgpt").total == 0 && Lookup(st, "Grok").total == 0 && Lookup(st, "Deepshik").total == 0;
        assert st.Keys == {};
      }
    }
  }
}
