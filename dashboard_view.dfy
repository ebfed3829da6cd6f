/**
 * What the dashboard page shows about the feedback loop (dashboard.py):
 * the headline counters and the countdown to the next meta-analysis, the
 * win/loss streak, and the labels on the consensus card and on verifier
 * learnings.
 */
module DashboardView {
  import opened Wrappers
  import opened Records
  import opened Text
  import opened Queries
  import Store
  import MetaLearner
  import Consensus

  // ---------------------------------------------------------------- counters

  /** The colour class of the accuracy figure. */
  function AccuracyClass(accuracy: real): (c: string)
    ensures c == "success" <==> accuracy >= 55.0
    ensures c == "error" <==> accuracy < 45.0
    ensures c == "warning" <==> 45.0 <= accuracy < 55.0
  {
    if accuracy >= 55.0 then "success" else if accuracy < 45.0 then "error" else "warning"
  }

  /** `MAX(predictions_analyzed) ... or 0`: the largest count stamped on any rule, 0 with no rules. */
  function MaxAnalyzed(rules: seq<MetaRule>): (m: int)
    ensures rules == [] ==> m == 0
    ensures forall k :: 0 <= k < |rules| ==> rules[k].predictionsAnalyzed <= m
    ensures rules != [] ==> exists k :: 0 <= k < |rules| && rules[k].predictionsAnalyzed == m
    decreases |rules|
  {
    if |rules| <= 1 then (if rules == [] then 0 else rules[0].predictionsAnalyzed)
    else
      var rest := MaxAnalyzed(rules[..|rules| - 1]);
      var last := rules[|rules| - 1].predictionsAnalyzed;
      assert forall k :: 0 <= k < |rules| - 1 ==> rules[k] == rules[..|rules| - 1][k];
      if last > rest then last else rest
  }

  /**
   * Predictions left before the next meta-analysis: measured from the largest
   * stamped count when the rule table exists, from zero when it does not.
   */
  function NextMeta(total: int, rules: Option<seq<MetaRule>>): (r: int)
    ensures r >= 0
    ensures rules.Some? ==> r == (if MaxAnalyzed(rules.value) + 100 - total > 0 then MaxAnalyzed(rules.value) + 100 - total else 0)
    ensures rules.None? ==> r == (if total < 100 then 100 - total else 0)
  {
    match rules
    case Some(t) =>
      var gap := MaxAnalyzed(t) + 100 - total;
      if gap > 0 then gap else 0
    case None => if total < 100 then 100 - total else 0
  }

  datatype DashboardStats = DashboardStats(
    total: nat, correct: nat, resolved: nat, accuracy: real, accuracyClass: string,
    extremes: nat, metaRules: nat, nextMeta: int)

  predicate IsMarkedExtreme(p: Prediction) { p.isExtreme == Some(true) }

  predicate IsActiveRule(m: MetaRule) { m.isActive }

  /**
   * `get_stats`. The rule table is `None` when the database predates it.
   * The headline accuracy is the predictor's own figure.
   */
  function Stats(db: Store.Database, ruleTable: Option<seq<MetaRule>>): (s: DashboardStats)
    reads db
    ensures s.total == |db.predictions|
    ensures s.correct <= s.resolved <= s.total
    ensures s.correct == db.GetStats().correctDirection && s.resolved == db.GetStats().resolved
    ensures s.accuracy == db.GetStats().accuracyPct && 0.0 <= s.accuracy <= 100.0
    ensures s.accuracyClass == AccuracyClass(s.accuracy)
    ensures s.extremes == |Filter(db.predictions, IsMarkedExtreme)| <= s.total
    ensures ruleTable.None? ==> s.metaRules == 0
    ensures ruleTable.Some? ==> s.metaRules == |Filter(ruleTable.value, IsActiveRule)|
    ensures s.nextMeta == NextMeta(s.total, ruleTable)
  {
    var st := db.GetStats();
    DashboardStats(
      st.totalPredictions, st.correctDirection, st.resolved, st.accuracyPct, AccuracyClass(st.accuracyPct),
      |Filter(db.predictions, IsMarkedExtreme)|,
      if ruleTable.Some? then |Filter(ruleTable.value, IsActiveRule)| else 0,
      NextMeta(st.totalPredictions, ruleTable))
  }

  /** A database without the rule table counts down exactly like one whose table is empty. */
  lemma MissingTableIsEmptyTable(total: int)
    ensures NextMeta(total, None) == NextMeta(total, Some([]))
  {
  }

  /**
   * While rule counts track the prediction total, the largest count is the
   * newest rule's, the one the scheduler compares against.
   */
  lemma MaxIsNewestCount(rules: seq<MetaRule>, total: int)
    requires MetaLearner.CountsTrackTotal(rules, total)
    ensures rules == [] ==> MaxAnalyzed(rules) == 0
    ensures rules != [] ==> MaxAnalyzed(rules) == rules[|rules| - 1].predictionsAnalyzed
  {
    if rules != [] {
      MetaLearner.NewestCountIsMax(rules, total);
    }
  }

  /**
   * The countdown reaches zero exactly when the meta-learner's scheduler
   * says an analysis is due, provided rule counts track the prediction
   * total.
   */
  lemma CountdownMatchesScheduler(db: Store.Database, ruleTable: Option<seq<MetaRule>>)
    requires ruleTable.None? ==> db.metaLearnings == []
    requires ruleTable.Some? ==> ruleTable.value == db.metaLearnings
    requires MetaLearner.CountsTrackTotal(db.metaLearnings, |db.predictions|)
    ensures Stats(db, ruleTable).nextMeta == 0 <==> MetaLearner.ShouldAnalyze(db)
  {
    MaxIsNewestCount(db.metaLearnings, |db.predictions|);
  }

  /**
   * The countdown is exact: after `nextMeta` more predictions (and not one
   * fewer) the stamped count is 100 behind the total.
   */
  lemma CountdownIsExact(total: int, rules: seq<MetaRule>)
    requires NextMeta(total, Some(rules)) > 0
    ensures var n := NextMeta(total, Some(rules));
      MetaLearner.ShouldAnalyzeCounts(total + n, MaxAnalyzed(rules))
      && !MetaLearner.ShouldAnalyzeCounts(total + n - 1, MaxAnalyzed(rules))
  {
  }

  // ---------------------------------------------------------------- streak

  datatype Mark = Pending | Win | Loss

  /** Unresolved rows are pending; resolved rows win when the direction was right. */
  function MarkOf(p: Prediction): (m: Mark)
    ensures m == Pending <==> !p.Resolved()
    ensures m == Win <==> p.DirectionCorrect()
  {
    if p.resolution.None? then Pending
    else if p.resolution.value.directionCorrect then Win
    else Loss
  }

  const PENDING_ITEM := "<div class=\"streak-item pending\">?</div>"
  const WIN_ITEM := "<div class=\"streak-item win\">W</div>"
  const LOSS_ITEM := "<div class=\"streak-item loss\">L</div>"
  const EMPTY_STREAK := "<div class=\"empty-state\">No results yet</div>"

  function ItemHtml(m: Mark): string {
    match m
    case Pending => PENDING_ITEM
    case Win => WIN_ITEM
    case Loss => LOSS_ITEM
  }

  /** `''.join(items)`. */
  function Join(items: seq<string>): string
    decreases |items|
  {
    if items == [] then "" else items[0] + Join(items[1..])
  }

  /** The marks of a list of rows read oldest first (the query returns them newest first). */
  function OldestFirstMarks(results: seq<Prediction>): (ms: seq<Mark>)
    ensures |ms| == |results|
    ensures forall k :: 0 <= k < |ms| ==> ms[k] == MarkOf(results[|results| - 1 - k])
  {
    seq(|results|, k requires 0 <= k < |results| => MarkOf(results[|results| - 1 - k]))
  }

  /** Reading a rendered streak back into its marks. */
  function ParseStreak(s: string): Option<seq<Mark>>
    decreases |s|
  {
    if s == [] then Some([])
    else
      var m :=
        if StartsWith(s, PENDING_ITEM) then Some(Pending)
        else if StartsWith(s, WIN_ITEM) then Some(Win)
        else if StartsWith(s, LOSS_ITEM) then Some(Loss)
        else None;
      if m.None? then None
      else match ParseStreak(s[|ItemHtml(m.value)|..])
        case Some(rest) => Some([m.value] + rest)
        case None => None
  }

  /** Each item is recognised as itself and as no other: they differ after the shared prefix. */
  lemma ItemRecognised(m: Mark, rest: string)
    ensures var s := ItemHtml(m) + rest;
      (StartsWith(s, PENDING_ITEM) <==> m == Pending)
      && (StartsWith(s, WIN_ITEM) <==> m == Win)
      && (StartsWith(s, LOSS_ITEM) <==> m == Loss)
  {
    var s := ItemHtml(m) + rest;
    assert s[..|ItemHtml(m)|] == ItemHtml(m);
    assert s[24] == ItemHtml(m)[24];
    assert PENDING_ITEM[24] == 'p' && WIN_ITEM[24] == 'w' && LOSS_ITEM[24] == 'l';
  }

  /** The page text of a run of marks: their items, one after another. */
  function Render(ms: seq<Mark>): string
    decreases |ms|
  {
    if ms == [] then "" else ItemHtml(ms[0]) + Render(ms[1..])
  }

  /** The rendering loses nothing: the marks can be read back from the page. */
  lemma {:induction false} StreakRoundTrip(ms: seq<Mark>)
    ensures ParseStreak(Render(ms)) == Some(ms)
    decreases |ms|
  {
    if ms != [] {
      ParseItem(ms[0], Render(ms[1..]));
      StreakRoundTrip(ms[1..]);
      assert [ms[0]] + ms[1..] == ms;
    }
  }

  /** Reading one item off the front of a page, then the rest of it. */
  lemma ParseItem(m: Mark, rest: string)
    ensures ParseStreak(ItemHtml(m) + rest) ==
      match ParseStreak(rest)
      case Some(tail) => Some([m] + tail)
      case None => None
  {
    var s := ItemHtml(m) + rest;
    ItemRecognised(m, rest);
    assert s[|ItemHtml(m)|..] == rest;
  }

  /** Joining the items of a run of marks renders that run. */
  lemma {:induction false} JoinRenders(items: seq<string>, ms: seq<Mark>)
    requires |items| == |ms|
    requires forall k :: 0 <= k < |ms| ==> items[k] == ItemHtml(ms[k])
    ensures Join(items) == Render(ms)
    decreases |ms|
  {
    if ms != [] {
      JoinRenders(items[1..], ms[1..]);
    }
  }

  /**
   * `render_streak`: one item per row, oldest first, or the empty-state
   * block when there is nothing to show.
   */
  method RenderStreak(results: seq<Prediction>) returns (html: string)
    ensures results == [] ==> html == EMPTY_STREAK
    ensures results != [] ==> ParseStreak(html) == Some(OldestFirstMarks(results))
  {
    var items: seq<string> := [];
    var j := 0;
    while j < |results|
      invariant 0 <= j <= |results|
      invariant |items| == j
      invariant forall k :: 0 <= k < j ==> items[k] == ItemHtml(MarkOf(results[|results| - 1 - k]))
    {
      var r := results[|results| - 1 - j];
      var item;
      if r.resolution.None? {
        item := PENDING_ITEM;
      } else if r.resolution.value.directionCorrect {
        item := WIN_ITEM;
      } else {
        item := LOSS_ITEM;
      }
      items := items + [item];
      j := j + 1;
    }
    if items == [] {
      return EMPTY_STREAK;
    }
    html := Join(items);
    ghost var ms := OldestFirstMarks(results);
    JoinRenders(items, ms);
    StreakRoundTrip(ms);
  }

  /** `get_recent_streak`: the newest twenty rows, newest first. */
  function RecentStreak(db: Store.Database): (r: seq<Prediction>)
    reads db
    ensures |r| == Min(20, |db.predictions|)
    ensures forall k :: 0 <= k < |r| ==> r[k] == db.predictions[|db.predictions| - 1 - k]
  {
    FilterKeepAll(db.predictions, (p: Prediction) => true);
    NewestFirst(db.predictions, (p: Prediction) => true, 20)
  }

  /** The streak shows the last `min(20, n)` predictions, oldest on the left. */
  lemma StreakShowsLatestOldestFirst(db: Store.Database)
    ensures var shown := OldestFirstMarks(RecentStreak(db));
      var n := |db.predictions|;
      var w := Min(20, n);
      |shown| == w && forall k :: 0 <= k < w ==> shown[k] == MarkOf(db.predictions[n - w + k])
  {
  }

  // ---------------------------------------------------------------- labels

  datatype Label = Label(cls: string, text: string)

  /** The consensus card's class and caption, from the verifier's verdict and confidence. */
  function ConsensusLabel(agrees: bool, confidence: int): Label {
    if agrees then
      if confidence >= 70 then Label("strong", "CONSENSUS STRONG") else Label("weak", "CONSENSUS WEAK")
    else
      if confidence <= 30 then Label("veto", "VERIFIER VETO") else Label("disagreement", "DISAGREEMENT")
  }

  /** The predictor's signal name with underscores shown as spaces. */
  function Caption(name: string): string {
    seq(|name|, i requires 0 <= i < |name| => if name[i] == '_' then ' ' else name[i])
  }

  /** The card shows the same signal the predictor computes for the pair. */
  lemma LabelMatchesConsensus(pred: Prediction, v: VerifierPrediction)
    ensures ConsensusLabel(v.agreesWithClaude, v.confidenceClaudeCorrect).text
         == Caption(Consensus.DetermineConsensus(pred, v).signal.Name())
  {
    var d := Consensus.DetermineConsensus(pred, v);
    assert Caption("CONSENSUS_STRONG") == "CONSENSUS STRONG";
    assert Caption("CONSENSUS_WEAK") == "CONSENSUS WEAK";
    assert Caption("VERIFIER_VETO") == "VERIFIER VETO";
    assert Caption("DISAGREEMENT") == "DISAGREEMENT";
  }

  /**
   * The context tag on a verifier learning, from its stored reason text:
   * a caught error, a false alarm, or the reason itself as a blind spot.
   */
  function ContextLabel(reason: string): (l: Label)
    ensures l.cls == "caught" <==> Contains(Lower(reason), "caught")
    ensures l.cls == "false-alarm" <==> !Contains(Lower(reason), "caught") && Contains(Lower(reason), "false alarm")
    ensures !Contains(Lower(reason), "caught") && !Contains(Lower(reason), "false alarm") ==> l.cls == "blind-spot"
    ensures l.cls == "caught" ==> l.text == "CAUGHT ERROR"
    ensures l.cls == "false-alarm" ==> l.text == "FALSE ALARM"
    ensures l.cls == "blind-spot" ==> l.text == Upper(reason[..Min(30, |reason|)]) && |l.text| <= 30
  {
    if Contains(Lower(reason), "caught") then Label("caught", "CAUGHT ERROR")
    else if Contains(Lower(reason), "false alarm") then Label("false-alarm", "FALSE ALARM")
    else Label("blind-spot", Upper(reason[..Min(30, |reason|)]))
  }

  /** The caught-error message, cut where the proof below looks for "caught". */
  lemma CaughtMessageSplits()
    ensures CaughtClaudeError.Message() == "Correctly " + "caught" + " Claude error"
  {
  }

  /** The false-alarm message, cut before its only capital C. */
  lemma FalseAlarmMessageSplits()
    ensures FalseAlarm.Message() == "False alarm" + " - wrongly disagreed with " + "Claude"
  {
  }

  /** A verifier learning stored for a caught error is tagged as one. */
  lemma CaughtErrorTagged()
    ensures ContextLabel(CaughtClaudeError.Message()) == Label("caught", "CAUGHT ERROR")
  {
    var a, b, c := "Correctly ", "caught", " Claude error";
    CaughtMessageSplits();
    LowerConcat(a, b);
    LowerConcat(a + b, c);
    assert Lower(b) == b;
    var s := Lower(a + b + c);
    assert s[|a|..][..|b|] == b;
    ContainsAt(s, b, |a|);
  }

  /** A verifier learning stored for a false alarm is tagged as one. */
  lemma FalseAlarmTagged()
    ensures ContextLabel(FalseAlarm.Message()) == Label("false-alarm", "FALSE ALARM")
  {
    FalseAlarmSaysFalseAlarm();
    FalseAlarmNeverSaysCaught();
  }

  lemma FalseAlarmSaysFalseAlarm()
    ensures Contains(Lower(FalseAlarm.Message()), "false alarm")
  {
    var a, b, c := "False alarm", " - wrongly disagreed with ", "Claude";
    FalseAlarmMessageSplits();
    LowerConcat(a, b);
    LowerConcat(a + b, c);
    var s := Lower(a + b + c);
    assert Lower(a) == "false alarm";
    assert s[..|a|] == "false alarm";
    ContainsAt(s, "false alarm", 0);
  }

  lemma FalseAlarmNeverSaysCaught()
    ensures !Contains(Lower(FalseAlarm.Message()), "caught")
  {
    var a, b, c := "False alarm", " - wrongly disagreed with ", "Claude";
    FalseAlarmMessageSplits();
    LowerConcat(a + b, c);
    assert 'c' !in a + b && 'C' !in a + b;
    LowerAbsent(a + b, 'c');
    ContainsSkip(Lower(a + b), Lower(c), "caught");
    var l := Lower(c);
    assert l[1] == 'l';
    assert !StartsWith(l, "caught");
    ContainsShort(l[1..], "caught");
  }
}
