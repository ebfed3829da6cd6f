/**
 * The escaping and truncation the dashboard applies to model-written text
 * before placing it in a page (dashboard.py, `render_current_prediction`,
 * `render_learnings`, `render_meta_rules`, `render_verifier_learnings`).
 */
module HtmlText {
  import opened Wrappers
  import opened Text

  /** The entity each special character becomes. */
  function EscapeChar(c: char): string {
    if c == '&' then "&amp;" else if c == '<' then "&lt;" else if c == '>' then "&gt;" else [c]
  }

  /** Escaping as a character-by-character map. */
  function EscapeChars(s: string): string
    decreases |s|
  {
    if s == [] then [] else EscapeChar(s[0]) + EscapeChars(s[1..])
  }

  /**
   * `s.replace('&', '&amp;').replace('<', '&lt;').replace('>', '&gt;')`.
   * Because the ampersand goes first, the three passes amount to mapping
   * each character to its entity once.
   */
  function EscapeHtml(s: string): (r: string)
    ensures r == EscapeChars(s)
  {
    EscapeIsPerChar(s);
    ReplaceAll(ReplaceAll(ReplaceAll(s, "&", "&amp;"), "<", "&lt;"), ">", "&gt;")
  }

  function AmpPass(s: string): string { ReplaceAll(s, "&", "&amp;") }
  function LtPass(s: string): string { ReplaceAll(s, "<", "&lt;") }
  function GtPass(s: string): string { ReplaceAll(s, ">", "&gt;") }

  lemma OneCharPass(x: char, c: char, rep: string)
    ensures ReplaceAll([x], [c], rep) == if x == c then rep else [x]
  {
    ReplaceCharStep([x], c, rep);
    assert [x][1..] == [];
  }

  /** The three passes on a single character give its entity. */
  lemma EscapeOneChar(c: char)
    ensures GtPass(LtPass(AmpPass([c]))) == EscapeChar(c)
  {
    OneCharPass(c, '&', "&amp;");
    if c == '&' {
      ReplaceCharAbsent("&amp;", '<', "&lt;");
      ReplaceCharAbsent("&amp;", '>', "&gt;");
    } else {
      OneCharPass(c, '<', "&lt;");
      if c == '<' {
        ReplaceCharAbsent("&lt;", '>', "&gt;");
      } else {
        OneCharPass(c, '>', "&gt;");
      }
    }
  }

  lemma {:induction false} EscapeIsPerChar(s: string)
    ensures ReplaceAll(ReplaceAll(ReplaceAll(s, "&", "&amp;"), "<", "&lt;"), ">", "&gt;") == EscapeChars(s)
    decreases |s|
  {
    if s == [] {
      ReplaceCharAbsent(s, '&', "&amp;");
      ReplaceCharAbsent(s, '<', "&lt;");
      ReplaceCharAbsent(s, '>', "&gt;");
    } else {
      var head := [s[0]];
      assert s == head + s[1..];
      ReplaceCharConcat(head, s[1..], '&', "&amp;");
      var a := AmpPass(head);
      var b := AmpPass(s[1..]);
      ReplaceCharConcat(a, b, '<', "&lt;");
      ReplaceCharConcat(LtPass(a), LtPass(b), '>', "&gt;");
      EscapeOneChar(s[0]);
      EscapeIsPerChar(s[1..]);
    }
  }

  /** Reading the entities back. */
  function Unescape(s: string): string
    decreases |s|
  {
    if s == [] then []
    else if StartsWith(s, "&amp;") then "&" + Unescape(s[5..])
    else if StartsWith(s, "&lt;") then "<" + Unescape(s[4..])
    else if StartsWith(s, "&gt;") then ">" + Unescape(s[4..])
    else [s[0]] + Unescape(s[1..])
  }

  /** Unescaping reads one entity (or plain character) off the front. */
  lemma UnescapeStep(c: char, rest: string)
    ensures Unescape(EscapeChar(c) + rest) == [c] + Unescape(rest)
  {
    var e := EscapeChar(c) + rest;
    if c == '&' {
      assert e[..5] == "&amp;" && e[5..] == rest;
    } else if c == '<' {
      assert e[..4] == "&lt;" && e[4..] == rest;
      assert e[1] == "&lt;"[1] == 'l' && "&amp;"[1] == 'a';
      assert !StartsWith(e, "&amp;");
    } else if c == '>' {
      assert e[..4] == "&gt;" && e[4..] == rest;
      assert e[1] == "&gt;"[1] == 'g' && "&amp;"[1] == 'a' && "&lt;"[1] == 'l';
      assert !StartsWith(e, "&amp;");
      assert !StartsWith(e, "&lt;");
    } else {
      assert e[0] == c && e[1..] == rest;
      assert !StartsWith(e, "&amp;") && !StartsWith(e, "&lt;") && !StartsWith(e, "&gt;");
    }
  }

  /** Escaping loses nothing: unescaping gives the original text back. */
  lemma {:induction false} UnescapeEscape(s: string)
    ensures Unescape(EscapeHtml(s)) == s
    decreases |s|
  {
    if s != [] {
      assert EscapeChars(s) == EscapeChar(s[0]) + EscapeChars(s[1..]);
      UnescapeStep(s[0], EscapeChars(s[1..]));
      UnescapeEscape(s[1..]);
      assert [s[0]] + s[1..] == s;
    }
  }

  /** Escaped text has no raw angle bracket left to open or close a tag. */
  lemma {:induction false} EscapedHasNoBrackets(s: string)
    ensures '<' !in EscapeHtml(s) && '>' !in EscapeHtml(s)
    decreases |s|
  {
    if s != [] {
      EscapedHasNoBrackets(s[1..]);
      assert EscapeChars(s) == EscapeChar(s[0]) + EscapeChars(s[1..]);
    }
  }

  /** `s[:limit] + '...' if len(s) > limit else s`. */
  function Truncate(s: string, limit: nat): (r: string)
    ensures |s| <= limit ==> r == s
    ensures |s| > limit ==> |r| == limit + 3 && r[..limit] == s[..limit] && r[limit..] == "..."
  {
    if |s| > limit then s[..limit] + "..." else s
  }

  /** Truncating twice at the same limit is truncating once. */
  lemma TruncateIdempotent(s: string, limit: nat)
    ensures Truncate(Truncate(s, limit), limit) == Truncate(s, limit)
  {
    if |s| > limit {
      var t := Truncate(s, limit);
      assert t[..limit] == s[..limit];
    }
  }

  /** The primary's reasoning on the current-prediction card: escaped, or a placeholder, cut at 150. */
  function ReasoningShort(reasoning: string): (r: string)
    ensures reasoning == "" ==> r == "No reasoning recorded"
    ensures reasoning != "" ==> r == Truncate(EscapeHtml(reasoning), 150)
    ensures '<' !in r && '>' !in r
  {
    EscapedHasNoBrackets(reasoning);
    Truncate(if reasoning != "" then EscapeHtml(reasoning) else "No reasoning recorded", 150)
  }

  /** The verifier's reasoning on the same card: escaped, cut at 100. */
  function VerifierReasoningShort(reasoning: string): (r: string)
    ensures r == Truncate(EscapeHtml(reasoning), 100) && |r| <= 103
    ensures '<' !in r && '>' !in r
    ensures |EscapeHtml(reasoning)| <= 100 ==> Unescape(r) == reasoning
  {
    EscapedHasNoBrackets(reasoning);
    UnescapeEscape(reasoning);
    Truncate(if reasoning != "" then EscapeHtml(reasoning) else "", 100)
  }

  /** A learning as `render_learnings` shows it: reason (default 'Unknown'), short and full text. */
  datatype LearningView = LearningView(reason: string, short: string, full: string)

  function LearningDisplay(reason: Option<string>, learning: Option<string>): (v: LearningView)
    ensures Unescape(v.reason) == (if reason.Some? && reason.value != "" then reason.value else "Unknown")
    ensures Unescape(v.full) == (if learning.Some? then learning.value else "")
    ensures v.full == EscapeHtml(learning.GetOr(""))
    ensures v.reason == EscapeHtml(if reason.Some? && reason.value != "" then reason.value else "Unknown")
    ensures v.short == Truncate(v.full, 100)
    ensures '<' !in v.full && '>' !in v.full && '<' !in v.reason && '>' !in v.reason
  {
    var r := if reason.Some? && reason.value != "" then reason.value else "Unknown";
    var t := learning.GetOr("");
    UnescapeEscape(r);
    UnescapeEscape(t);
    EscapedHasNoBrackets(r);
    EscapedHasNoBrackets(t);
    var text := EscapeHtml(t);
    LearningView(EscapeHtml(r), Truncate(text, 100), text)
  }

  /** A meta-rule as `render_meta_rules` shows it: escaped description, short and full rule. */
  datatype RuleView = RuleView(description: string, short: string, full: string)

  function MetaRuleDisplay(description: string, rule: string): (v: RuleView)
    ensures Unescape(v.description) == description && Unescape(v.full) == rule
    ensures v.description == EscapeHtml(description) && v.full == EscapeHtml(rule)
    ensures v.short == Truncate(v.full, 100)
    ensures '<' !in v.full && '>' !in v.full && '<' !in v.description && '>' !in v.description
  {
    UnescapeEscape(description);
    UnescapeEscape(rule);
    EscapedHasNoBrackets(description);
    EscapedHasNoBrackets(rule);
    var full := EscapeHtml(rule);
    RuleView(EscapeHtml(description), Truncate(full, 100), full)
  }
}
