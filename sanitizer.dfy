/** The prompt sanitizer: delete the segments matched by an ordered list of malicious
    patterns, tidy what is left, and optionally re-analyse the cleaned prompt. */
module Sanitizer {
  import opened Util

  /** A match `[start, end)` reported by the regex engine. */
  datatype Span = Span(start: nat, end: nat)

  /** What `re.finditer` guarantees of the matches of one pattern: each is non-empty (no
      pattern matches the empty string), and they come left to right, without
      overlapping, inside `[lo, hi)`. */
  predicate InBounds(spans: seq<Span>, lo: nat, hi: nat)
    decreases |spans|
  {
    spans == [] || (lo <= spans[0].start < spans[0].end <= hi && InBounds(spans[1..], spans[0].end, hi))
  }

  lemma {:induction false} InBoundsWeaken(spans: seq<Span>, lo: nat, hi: nat, lo': nat, hi': nat)
    requires InBounds(spans, lo, hi) && lo' <= lo && hi <= hi'
    ensures InBounds(spans, lo', hi')
    decreases |spans|
  {
    if spans != [] {
      InBoundsWeaken(spans[1..], spans[0].end, hi, spans[0].end, hi');
    }
  }

  /** The matches from the i-th on are in bounds too. */
  lemma {:induction false} InBoundsPrefix(spans: seq<Span>, i: nat, hi: nat)
    requires InBounds(spans, 0, hi) && i <= |spans|
    ensures InBounds(spans[i..], 0, hi)
    decreases i
  {
    if i > 0 {
      InBoundsWeaken(spans[1..], spans[0].end, hi, 0, hi);
      InBoundsPrefix(spans[1..], i - 1, hi);
      assert spans[1..][i - 1..] == spans[i..];
    }
  }

  /** A compiled pattern, seen only through the matches it reports. */
  type Finder = f: string -> seq<Span> | forall s :: InBounds(f(s), 0, |s|) witness (s: string) => []

  datatype Pattern = Pattern(find: Finder, kind: string)

  datatype Action = Action(kind: string, removed: string, position: nat)

  datatype Sanitization = Sanitization(original: string, sanitized: string, actions: seq<Action>,
                                       wasSanitized: bool, removedCount: nat)

  /** Text and actions after some of the deletions. */
  datatype Pass = Pass(text: string, actions: seq<Action>)

  // ----- deleting the matches of one pattern ------------------------------------------

  /** Delete the spans right to left, so that the positions of the spans still to be
      deleted stay valid: the spans after the first go first, then the first; one action
      per deletion, in deletion order. The text before the first span is kept. */
  function RemoveAll(s: string, spans: seq<Span>, kind: string): (r: Pass)
    requires InBounds(spans, 0, |s|)
    ensures |r.actions| == |spans|
    ensures |r.text| + |spans| <= |s|
    ensures spans != [] ==> spans[0].start <= |r.text| && r.text[..spans[0].start] == s[..spans[0].start]
    decreases |spans|
  {
    if spans == [] then Pass(s, [])
    else
      var a := spans[0];
      InBoundsWeaken(spans[1..], a.end, |s|, 0, |s|);
      var rest := RemoveAll(s, spans[1..], kind);
      assert a.end <= |rest.text| && rest.text[..a.end] == s[..a.end] by {
        if spans[1..] != [] {
          assert rest.text[..a.end] == rest.text[..spans[1].start][..a.end];
        }
      }
      Pass(rest.text[..a.start] + rest.text[a.end..],
           rest.actions + [Action(kind, rest.text[a.start..a.end], a.start)])
  }

  /** Action `a` records the deletion of span `sp` of `s` for a pattern of the given kind. */
  predicate RecordsSpan(s: string, sp: Span, a: Action, kind: string) {
    sp.start < sp.end <= |s| && a == Action(kind, s[sp.start..sp.end], sp.start)
  }

  /** The k-th action records the k-th span from the right. */
  predicate RecordsRightToLeft(s: string, spans: seq<Span>, acts: seq<Action>, kind: string) {
    |acts| == |spans| && forall k :: 0 <= k < |acts| ==> RecordsSpan(s, spans[|spans| - 1 - k], acts[k], kind)
  }

  /** Every action records the kind, the exact text of its span in the string the pattern
      was matched against, and the span's start; the k-th action is the k-th span from the
      right. */
  lemma {:induction false} RemoveAllActions(s: string, spans: seq<Span>, kind: string)
    requires InBounds(spans, 0, |s|)
    ensures RecordsRightToLeft(s, spans, RemoveAll(s, spans, kind).actions, kind)
    decreases |spans|
  {
    if spans != [] {
      var a := spans[0];
      InBoundsWeaken(spans[1..], a.end, |s|, 0, |s|);
      RemoveAllActions(s, spans[1..], kind);
      var rest := RemoveAll(s, spans[1..], kind);
      assert rest.text[a.start..a.end] == s[a.start..a.end] by {
        assert rest.text[..a.end] == s[..a.end];
        assert rest.text[a.start..a.end] == rest.text[..a.end][a.start..];
      }
      var acts := RemoveAll(s, spans, kind).actions;
      assert acts == rest.actions + [Action(kind, s[a.start..a.end], a.start)];
      forall k | 0 <= k < |acts| ensures RecordsSpan(s, spans[|spans| - 1 - k], acts[k], kind) {
        if k < |rest.actions| {
          assert spans[1..][|spans| - 2 - k] == spans[|spans| - 1 - k];
          assert acts[k] == rest.actions[k];
        }
      }
    }
  }

  /** Every action carries one of the given kinds. */
  predicate OfKinds(acts: seq<Action>, kinds: seq<string>) {
    forall k :: 0 <= k < |acts| ==> acts[k].kind in kinds
  }

  /** Every action of one pattern carries that pattern's kind. */
  lemma {:induction false} RemoveAllKind(s: string, spans: seq<Span>, kind: string)
    requires InBounds(spans, 0, |s|)
    ensures OfKinds(RemoveAll(s, spans, kind).actions, [kind])
    decreases |spans|
  {
    if spans != [] {
      InBoundsWeaken(spans[1..], spans[0].end, |s|, 0, |s|);
      RemoveAllKind(s, spans[1..], kind);
      var rest := RemoveAll(s, spans[1..], kind);
      var a := spans[0];
      var acts := RemoveAll(s, spans, kind).actions;
      assert acts == rest.actions + [Action(kind, rest.text[a.start..a.end], a.start)];
      forall k | 0 <= k < |acts| ensures acts[k].kind in [kind] {
        if k < |rest.actions| { assert acts[k] == rest.actions[k]; }
      }
    }
  }

  /** The text left between the spans, read left to right from `from`: an independent
      description of what right-to-left deletion keeps. */
  function Gaps(s: string, spans: seq<Span>, from: nat): string
    requires InBounds(spans, from, |s|) && from <= |s|
    decreases |spans|
  {
    if spans == [] then s[from..]
    else s[from..spans[0].start] + Gaps(s, spans[1..], spans[0].end)
  }

  /** Deleting spans that lie after `lo` keeps the text before `lo` and then exactly the
      gaps between the spans, in order. */
  lemma {:induction false} RemoveAllKeepsGapsFrom(s: string, spans: seq<Span>, kind: string, lo: nat)
    requires InBounds(spans, lo, |s|) && lo <= |s|
    ensures InBounds(spans, 0, |s|)
    ensures RemoveAll(s, spans, kind).text == s[..lo] + Gaps(s, spans, lo)
    decreases |spans|
  {
    InBoundsWeaken(spans, lo, |s|, 0, |s|);
    if spans == [] {
      assert s == s[..lo] + s[lo..];
    } else {
      var a := spans[0];
      RemoveAllKeepsGapsFrom(s, spans[1..], kind, a.end);
      var rest := RemoveAll(s, spans[1..], kind);
      var g := Gaps(s, spans[1..], a.end);
      assert rest.text == s[..a.end] + g;
      assert rest.text[..a.start] == s[..lo] + s[lo..a.start];
      assert rest.text[a.end..] == g;
    }
  }

  /** Deleting the spans right to left leaves exactly the gaps between them, in order. */
  lemma RemoveAllKeepsGaps(s: string, spans: seq<Span>, kind: string)
    requires InBounds(spans, 0, |s|)
    ensures RemoveAll(s, spans, kind).text == Gaps(s, spans, 0)
  {
    RemoveAllKeepsGapsFrom(s, spans, kind, 0);
  }

  // ----- all patterns in catalogue order ----------------------------------------------

  /** Each pattern is matched against the text left by the patterns before it. */
  function ApplyPatterns(text: string, patterns: seq<Pattern>): (r: Pass)
    ensures |r.text| <= |text|
    decreases |patterns|
  {
    if patterns == [] then Pass(text, [])
    else
      var before := ApplyPatterns(text, patterns[..|patterns| - 1]);
      var p := patterns[|patterns| - 1];
      var after := RemoveAll(before.text, p.find(before.text), p.kind);
      Pass(after.text, before.actions + after.actions)
  }

  /** Every deletion shortens the text by at least one character. */
  lemma {:induction false} ApplyPatternsShrinks(text: string, patterns: seq<Pattern>)
    ensures var r := ApplyPatterns(text, patterns); |r.text| + |r.actions| <= |text|
    decreases |patterns|
  {
    if patterns != [] {
      ApplyPatternsShrinks(text, patterns[..|patterns| - 1]);
    }
  }

  /** The kinds of the patterns, in order. */
  function Kinds(patterns: seq<Pattern>): (r: seq<string>)
    ensures |r| == |patterns|
    decreases |patterns|
  {
    if patterns == [] then [] else Kinds(patterns[..|patterns| - 1]) + [patterns[|patterns| - 1].kind]
  }

  lemma KindsStep(before: seq<Action>, after: seq<Action>, kinds: seq<string>, kind: string)
    requires OfKinds(before, kinds) && OfKinds(after, [kind])
    ensures OfKinds(before + after, kinds + [kind])
  {
    var acts := before + after;
    forall k | 0 <= k < |acts| ensures acts[k].kind in kinds + [kind] {
      if k < |before| {
        assert acts[k] == before[k];
      } else {
        assert acts[k] == after[k - |before|];
      }
    }
  }

  /** Every recorded action names the kind of one of the patterns. */
  lemma {:induction false} ApplyPatternsKinds(text: string, patterns: seq<Pattern>)
    ensures OfKinds(ApplyPatterns(text, patterns).actions, Kinds(patterns))
    decreases |patterns|
  {
    if patterns != [] {
      var init := patterns[..|patterns| - 1];
      var p := patterns[|patterns| - 1];
      ApplyPatternsKinds(text, init);
      var before := ApplyPatterns(text, init);
      var after := RemoveAll(before.text, p.find(before.text), p.kind);
      RemoveAllKind(before.text, p.find(before.text), p.kind);
      KindsStep(before.actions, after.actions, Kinds(init), p.kind);
    }
  }

  /** When no pattern matches the text, nothing is deleted. */
  lemma {:induction false} ApplyPatternsNoMatch(text: string, patterns: seq<Pattern>)
    requires forall i :: 0 <= i < |patterns| ==> patterns[i].find(text) == []
    ensures ApplyPatterns(text, patterns) == Pass(text, [])
    decreases |patterns|
  {
    if patterns != [] {
      ApplyPatternsNoMatch(text, patterns[..|patterns| - 1]);
      assert patterns[|patterns| - 1].find(text) == [];
    }
  }

  // ----- _cleanup_text ----------------------------------------------------------------

  const Connectors: seq<string> := ["and", "then", "also", "plus", "additionally", "furthermore"]

  /** `s` begins with the lower-case word `w`, ignoring (ASCII) case. */
  predicate StartsWithWord(s: string, w: string) {
    |s| >= |w| && Lower(s[..|w|]) == w
  }

  /** `s` ends with the lower-case word `w`, ignoring (ASCII) case. */
  predicate EndsWithWord(s: string, w: string) {
    |s| >= |w| && Lower(s[|s| - |w|..]) == w
  }

  /** `re.sub(rf"^\s*{w}\s+", "", s, flags=re.IGNORECASE)` */
  function DropLeadingConnector(s: string, w: string): (r: string)
    ensures |r| <= |s|
  {
    var l := LStrip(s);
    if StartsWithWord(l, w) && |l| > |w| && IsSpace(l[|w|]) then LStrip(l[|w|..]) else s
  }

  /** `re.sub(rf"\s+{w}\s*$", "", s, flags=re.IGNORECASE)`: the match starts where the
      whitespace run before the final word begins. */
  function DropTrailingConnector(s: string, w: string): (r: string)
    ensures |r| <= |s|
  {
    var t := RStrip(s);
    if EndsWithWord(t, w) && |t| > |w| && IsSpace(t[|t| - |w| - 1]) then RStrip(t[..|t| - |w|]) else s
  }

  /** The connector loop: for each connector in order, drop it at the start, then at the end. */
  function DropConnectors(s: string, ws: seq<string>): (r: string)
    ensures |r| <= |s|
    decreases |ws|
  {
    if ws == [] then s
    else DropConnectors(DropTrailingConnector(DropLeadingConnector(s, ws[0]), ws[0]), ws[1..])
  }

  /** No two neighbouring characters are both whitespace. */
  predicate NoDoubleSpace(s: string) {
    forall i :: 0 <= i < |s| - 1 ==> !(IsSpace(s[i]) && IsSpace(s[i + 1]))
  }

  /** `re.sub(r'\s+', ' ', s)`: every whitespace run becomes one space. */
  function Collapse(s: string): (r: string)
    ensures |r| <= |s|
    ensures r == [] <==> s == []
    ensures s != [] ==> (IsSpace(s[0]) <==> IsSpace(r[0]))
    ensures NoDoubleSpace(r)
    decreases |s|
  {
    if s == [] then []
    else if IsSpace(s[0]) then
      var rest := LStrip(s[1..]);
      LStripShape(s[1..]);
      [' '] + Collapse(rest)
    else [s[0]] + Collapse(s[1..])
  }

  /** The characters `[,;:\s]` trimmed at both ends. */
  predicate Junk(c: char) {
    c == ',' || c == ';' || c == ':' || IsSpace(c)
  }

  /** `re.sub(r'^[,;:\s]+', '', s)` */
  function TrimJunkStart(s: string): (r: string)
    ensures |r| <= |s|
    ensures r == s[|s| - |r|..]
    ensures r == [] || !Junk(r[0])
    decreases |s|
  {
    if s == [] || !Junk(s[0]) then s else TrimJunkStart(s[1..])
  }

  /** `re.sub(r'[,;:\s]+$', '', s)` */
  function TrimJunkEnd(s: string): (r: string)
    ensures |r| <= |s|
    ensures r == s[..|r|]
    ensures r == [] || !Junk(r[|r| - 1])
    decreases |s|
  {
    if s == [] || !Junk(s[|s| - 1]) then s else TrimJunkEnd(s[..|s| - 1])
  }

  /** `text[0].upper() + text[1:]` when the text is non-empty. */
  function Capitalize(s: string): (r: string)
    ensures |r| == |s|
  {
    if s == [] then s else [UpperChar(s[0])] + s[1..]
  }

  /** The part of `_cleanup_text` after the connector loop. */
  function Tidy(t: string): string {
    Capitalize(Strip(TrimJunkEnd(TrimJunkStart(Collapse(t)))))
  }

  /** `_cleanup_text` */
  function Cleanup(text: string): string {
    Tidy(DropConnectors(text, Connectors))
  }

  /** Any piece of a text without double whitespace has none either. */
  lemma NoDoubleSpaceSlice(s: string, i: nat, j: nat)
    requires NoDoubleSpace(s) && i <= j <= |s|
    ensures NoDoubleSpace(s[i..j])
  {
    forall k | 0 <= k < j - i - 1 ensures !(IsSpace(s[i..j][k]) && IsSpace(s[i..j][k + 1])) {
      assert s[i..j][k] == s[i + k] && s[i..j][k + 1] == s[i + k + 1];
    }
  }

  /** A text that neither starts nor ends with whitespace is its own strip. */
  lemma StripNoEnds(s: string)
    requires s == [] || (!IsSpace(s[0]) && !IsSpace(s[|s| - 1]))
    ensures Strip(s) == s
  {
  }

  /** The cleaned text is never longer, has no two neighbouring whitespace characters,
      neither starts nor ends with `,`, `;`, `:` or whitespace, and does not start with a
      lower-case letter. */
  lemma TidyShape(text: string)
    ensures var r := Tidy(text);
      && |r| <= |text|
      && NoDoubleSpace(r)
      && (r == [] || (!Junk(r[0]) && !Junk(r[|r| - 1])))
      && (r == [] || !('a' <= r[0] <= 'z'))
  {
    var b := TrimJunkEnd(TrimJunkStart(Collapse(text)));
    TrimmedShape(Collapse(text));
    StripNoEnds(b);
    CapitalizeShape(b);
  }

  /** Trimming the junk off both ends of a text without double whitespace. */
  lemma TrimmedShape(c: string)
    requires NoDoubleSpace(c)
    ensures var b := TrimJunkEnd(TrimJunkStart(c));
      && NoDoubleSpace(b)
      && (b == [] || (!Junk(b[0]) && !Junk(b[|b| - 1])))
  {
    var a := TrimJunkStart(c);
    var b := TrimJunkEnd(a);
    NoDoubleSpaceSlice(c, |c| - |a|, |c|);
    NoDoubleSpaceSlice(a, 0, |b|);
    if b != [] {
      assert !Junk(b[0]) by { assert b[0] == a[0]; }
    }
  }

  /** Upper-casing the first character keeps both ends free of junk and no double
      whitespace, and leaves no lower-case first letter. */
  lemma CapitalizeShape(b: string)
    requires NoDoubleSpace(b)
    requires b == [] || (!Junk(b[0]) && !Junk(b[|b| - 1]))
    ensures var r := Capitalize(b);
      && NoDoubleSpace(r)
      && (r == [] || (!Junk(r[0]) && !Junk(r[|r| - 1])))
      && (r == [] || !('a' <= r[0] <= 'z'))
  {
    var r := Capitalize(b);
    if r != [] {
      assert !Junk(r[0]);
      forall k | 0 <= k < |r| - 1 ensures !(IsSpace(r[k]) && IsSpace(r[k + 1])) {
        if k > 0 { assert r[k] == b[k] && r[k + 1] == b[k + 1]; }
      }
      if |r| > 1 { assert r[|r| - 1] == b[|b| - 1]; }
    }
  }

  /** The same holds of the whole cleanup. */
  lemma CleanupShape(text: string)
    ensures var r := Cleanup(text);
      && |r| <= |text|
      && NoDoubleSpace(r)
      && (r == [] || (!Junk(r[0]) && !Junk(r[|r| - 1])))
      && (r == [] || !('a' <= r[0] <= 'z'))
  {
    TidyShape(DropConnectors(text, Connectors));
  }

  // ----- sanitize_prompt --------------------------------------------------------------

  const CompleteRemoval := Action("complete_removal", "entire prompt", 0)

  /** The sanitization record for a text, the actions of its deletions and the cleaned
      remainder. */
  function Finish(text: string, deletions: seq<Action>, cleaned: string): Sanitization {
    var sanitized := if Blank(cleaned) then "" else cleaned;
    var actions := if Blank(cleaned) then deletions + [CompleteRemoval] else deletions;
    Sanitization(text, sanitized, actions, |actions| > 0, |actions|)
  }

  /** `sanitize_prompt` */
  function Sanitize(text: string, patterns: seq<Pattern>): Sanitization {
    var pass := ApplyPatterns(text, patterns);
    Finish(text, pass.actions, Cleanup(pass.text))
  }

  /** `sanitize_prompt` */
  method SanitizePrompt(text: string, patterns: seq<Pattern>) returns (r: Sanitization)
    ensures r == Sanitize(text, patterns)
  {
    var pass := ApplyAll(text, patterns);
    var sanitized, actions := pass.text, pass.actions;
    sanitized := Cleanup(sanitized);
    if Blank(sanitized) {
      sanitized := "";
      actions := actions + [CompleteRemoval];
    }
    r := Sanitization(text, sanitized, actions, |actions| > 0, |actions|);
  }

  /** The loop of `sanitize_prompt` over the catalogue. */
  method ApplyAll(text: string, patterns: seq<Pattern>) returns (r: Pass)
    ensures r == ApplyPatterns(text, patterns)
  {
    var sanitized := text;
    var actions: seq<Action> := [];
    for i := 0 to |patterns|
      invariant Pass(sanitized, actions) == ApplyPatterns(text, patterns[..i])
    {
      assert patterns[..i + 1][..i] == patterns[..i];
      var p := patterns[i];
      var matches := p.find(sanitized);
      var removal := RemoveMatches(sanitized, matches, p.kind);
      sanitized, actions := removal.text, actions + removal.actions;
    }
    assert patterns[..|patterns|] == patterns;
    r := Pass(sanitized, actions);
  }

  /** The inner loop of `sanitize_prompt`: the matches of one pattern, last first. */
  method RemoveMatches(text: string, matches: seq<Span>, kind: string) returns (r: Pass)
    requires InBounds(matches, 0, |text|)
    ensures r == RemoveAll(text, matches, kind)
  {
    var sanitized := text;
    var actions: seq<Action> := [];
    var j := |matches|;
    assert matches[j..] == [];
    while j > 0
      invariant 0 <= j <= |matches|
      invariant InBounds(matches[j..], 0, |text|)
      invariant Pass(sanitized, actions) == RemoveAll(text, matches[j..], kind)
    {
      var m := matches[j - 1];
      assert matches[j - 1..][1..] == matches[j..];
      InBoundsPrefix(matches, j - 1, |text|);
      var removed := sanitized[m.start..m.end];
      sanitized := sanitized[..m.start] + sanitized[m.end..];
      actions := actions + [Action(kind, removed, m.start)];
      j := j - 1;
    }
    assert matches[0..] == matches;
    r := Pass(sanitized, actions);
  }

  /** The record keeps the original, counts its actions, and is marked sanitized exactly
      when some action was recorded; the actions are the deletions in order, followed by
      the complete-removal action exactly when the cleaned text is blank, in which case
      the sanitized text is empty. */
  lemma FinishShape(text: string, deletions: seq<Action>, cleaned: string)
    ensures var r := Finish(text, deletions, cleaned);
      && r.original == text
      && r.removedCount == |r.actions|
      && (r.wasSanitized <==> |r.actions| > 0)
      && r.actions[..|deletions|] == deletions
      && (|r.actions| == |deletions| + 1 <==> Blank(cleaned))
      && (Blank(cleaned) ==> r.sanitized == "" && r.actions[|r.actions| - 1] == CompleteRemoval)
      && (!Blank(cleaned) ==> r.sanitized == cleaned && r.actions == deletions)
  {
  }

  /** A prompt no pattern matches loses nothing: if its cleanup is not blank there are no
      actions and the result is the cleaned original; otherwise the only action is the
      complete removal. */
  lemma NoMatchNoActions(text: string, patterns: seq<Pattern>)
    requires forall i :: 0 <= i < |patterns| ==> patterns[i].find(text) == []
    ensures var r := Sanitize(text, patterns);
      && (!Blank(Cleanup(text)) ==> r.actions == [] && !r.wasSanitized && r.sanitized == Cleanup(text))
      && (Blank(Cleanup(text)) ==> r.actions == [CompleteRemoval] && r.sanitized == "")
  {
    ApplyPatternsNoMatch(text, patterns);
  }

  /** Every action is of the kind of one of the patterns or is the complete removal. */
  lemma SanitizeKinds(text: string, patterns: seq<Pattern>)
    ensures OfKinds(Sanitize(text, patterns).actions, Kinds(patterns) + ["complete_removal"])
  {
    var pass := ApplyPatterns(text, patterns);
    ApplyPatternsKinds(text, patterns);
    FinishKinds(text, pass.actions, Cleanup(pass.text), Kinds(patterns));
  }

  lemma FinishKinds(text: string, deletions: seq<Action>, cleaned: string, kinds: seq<string>)
    requires OfKinds(deletions, kinds)
    ensures OfKinds(Finish(text, deletions, cleaned).actions, kinds + ["complete_removal"])
  {
    KindsStep(deletions, [CompleteRemoval], kinds, "complete_removal");
    KindsStep(deletions, [], kinds, "complete_removal");
    assert deletions + [] == deletions;
  }

  /** A sanitized prompt that is not empty is strictly shorter than the original: some
      span was deleted and the cleanup never lengthens. */
  lemma SanitizedShorter(text: string, patterns: seq<Pattern>)
    ensures var r := Sanitize(text, patterns);
      r.wasSanitized && r.sanitized != "" ==> |r.sanitized| < |text|
  {
    var pass := ApplyPatterns(text, patterns);
    ApplyPatternsShrinks(text, patterns);
    CleanupShape(pass.text);
  }

  // ----- should_sanitize and sanitize_and_retry ---------------------------------------

  /** `should_sanitize` */
  predicate ShouldSanitize(classification: string, action: string, riskScore: real) {
    if action == "WARN" then true
    else if action == "BLOCK" && 0.4 <= riskScore <= 0.7 then true
    else if classification in ["SUSPICIOUS", "REQUIRES_AUTH"] && riskScore < 0.8 then true
    else false
  }

  /** The borderline cases are sanitised and the clear ones are not: every warning is; a
      block of moderate risk is; a suspicious or authentication-scoped verdict below 0.8
      is; an allowed verdict of any other classification is not, and neither is a block
      outside the moderate band unless it is suspicious or authentication-scoped below 0.8
      (so a MALICIOUS block above 0.7 never is). */
  lemma ShouldSanitizeCases(classification: string, action: string, riskScore: real)
    ensures action == "WARN" ==> ShouldSanitize(classification, action, riskScore)
    ensures action == "BLOCK" && 0.4 <= riskScore <= 0.7 ==> ShouldSanitize(classification, action, riskScore)
    ensures classification in ["SUSPICIOUS", "REQUIRES_AUTH"] && riskScore < 0.8 ==>
      ShouldSanitize(classification, action, riskScore)
    ensures action == "ALLOW" && classification !in ["SUSPICIOUS", "REQUIRES_AUTH"] ==>
      !ShouldSanitize(classification, action, riskScore)
    ensures action == "BLOCK" && (riskScore < 0.4 || riskScore > 0.7)
            && !(classification in ["SUSPICIOUS", "REQUIRES_AUTH"] && riskScore < 0.8) ==>
      !ShouldSanitize(classification, action, riskScore)
    ensures classification == "MALICIOUS" && action == "BLOCK" && riskScore > 0.7 ==>
      !ShouldSanitize(classification, action, riskScore)
    ensures classification == "SAFE" && action == "ALLOW" ==> !ShouldSanitize(classification, action, riskScore)
  {
  }

  /** What the analyser returns: its verdict, or failure for an exception. */
  datatype Outcome<A> = Raised | Returned(value: A)

  datatype Retry<A> = Retry(sanitization: Sanitization, retryAnalysis: Option<A>, successful: bool,
                            noContent: bool, error: bool)

  /** `sanitize_and_retry` after its call to `sanitize_prompt`. */
  function RetryOn<A>(s: Sanitization, analyze: string -> Outcome<A>, actionOf: A -> string): (r: Retry<A>)
    ensures r.sanitization == s
  {
    if !s.wasSanitized then Retry(s, None, false, false, false)
    else if Blank(s.sanitized) then Retry(s, None, false, true, false)
    else match analyze(s.sanitized)
      case Raised => Retry(s, None, false, false, true)
      case Returned(v) => Retry(s, Some(v), actionOf(v) in ["ALLOW", "WARN"], false, false)
  }

  /** `sanitize_and_retry`, with the analyser and the action it reports as parameters. */
  function SanitizeAndRetry<A>(text: string, patterns: seq<Pattern>, analyze: string -> Outcome<A>,
                               actionOf: A -> string): Retry<A> {
    RetryOn(Sanitize(text, patterns), analyze, actionOf)
  }

  /** The analyser runs only on a prompt that was sanitized and is not blank; the retry
      succeeds exactly when it ran and allowed or warned; an exception leaves no analysis
      and no success; the no-content reason is given exactly for a blank result. */
  lemma RetryOnContract<A>(s: Sanitization, analyze: string -> Outcome<A>, actionOf: A -> string)
    ensures var r := RetryOn(s, analyze, actionOf);
      && (r.retryAnalysis.Some? <==> s.wasSanitized && !Blank(s.sanitized) && analyze(s.sanitized).Returned?)
      && (r.retryAnalysis.Some? ==> r.retryAnalysis.value == analyze(s.sanitized).value)
      && (r.successful <==> r.retryAnalysis.Some? && actionOf(r.retryAnalysis.value) in ["ALLOW", "WARN"])
      && (r.error <==> s.wasSanitized && !Blank(s.sanitized) && analyze(s.sanitized).Raised?)
      && (r.noContent <==> s.wasSanitized && Blank(s.sanitized))
  {
  }

  /** The prompt handed to the analyser is strictly shorter than the original, which is
      what bounds the re-analysis of a sanitized prompt. */
  lemma SanitizeAndRetryShorter<A>(text: string, patterns: seq<Pattern>, analyze: string -> Outcome<A>,
                                   actionOf: A -> string)
    ensures var s := Sanitize(text, patterns);
      s.wasSanitized && !Blank(s.sanitized) ==> |s.sanitized| < |text|
  {
    SanitizedShorter(text, patterns);
    if Sanitize(text, patterns).sanitized == "" {
      assert Blank("");
    }
  }
}
