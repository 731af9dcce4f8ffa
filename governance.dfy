/** The self-governance engine: fast rules, then one classifier call whose reply is
    normalised into the fixed vocabularies, an explainable record, an optional sanitised
    suggestion and the multi-turn escalation re-score. */
module Governance {
  import opened Util
  import opened Verdicts
  import AC = AttackChain
  import E = Explainability

  const AttackTypes := ["NONE", "JAILBREAK", "SYSTEM_OVERRIDE", "DATA_EXTRACTION",
                        "SOCIAL_ENGINEERING", "INSTRUCTION_CHAINING", "FAST_RULE"]
  const Classifications := ["SAFE", "REQUIRES_AUTH", "OUT_OF_SCOPE", "MALICIOUS"]
  const Actions := ["ALLOW", "WARN", "BLOCK"]
  const ScopeValues := ["IN_SCOPE", "REQUIRES_AUTH", "OUT_OF_SCOPE", "MALICIOUS"]

  /** Python's `x or default` for a string that may be missing: the default replaces a
      missing or empty value. */
  function Or(x: Option<string>, default: string): (r: string)
    ensures r == default <==> x.None? || x.value == "" || x.value == default
  {
    if x.Some? && x.value != "" then x.value else default
  }

  // ----- history ----------------------------------------------------------------------

  /** A history entry; `None` is a missing (or null) key. */
  datatype Turn = Turn(role: Option<string>, content: Option<string>, riskScore: Option<real>)

  /** `float(t.get("risk_score") or 0)` */
  function TurnRisk(t: Turn): real {
    if t.riskScore.Some? then t.riskScore.value else 0.0
  }

  /** How many of the turns have a risk above 0.5. */
  function HighRiskCount(turns: seq<Turn>): (n: nat)
    ensures n <= |turns|
    ensures n == 0 <==> forall i :: 0 <= i < |turns| ==> TurnRisk(turns[i]) <= 0.5
  {
    if turns == [] then 0
    else (if TurnRisk(turns[0]) > 0.5 then 1 else 0) + HighRiskCount(turns[1..])
  }

  const SessionNotePrefix := "\nSession note: "

  /** `_session_risk_summary`: a note on how many of the last six turns were risky, or
      nothing when none of them was. `showInt` renders a count. */
  function SessionRiskSummary(history: seq<Turn>, showInt: nat -> string): (r: string)
    ensures r == "" <==> forall i :: 0 <= i < |Last(history, 6)| ==> TurnRisk(Last(history, 6)[i]) <= 0.5
    ensures r != "" ==> SessionNotePrefix <= r
  {
    if history == [] then ""
    else
      var recent := Last(history, 6);
      var high := HighRiskCount(recent);
      if high == 0 then ""
      else SessionNotePrefix + showInt(high) + " of the last " + showInt(|recent|)
           + " turns had elevated risk. Consider slow-burn or escalation."
  }

  /** One history line: the upper-cased role (default "user") and the first 200
      characters of the content. */
  function HistoryLine(t: Turn): (line: string)
    ensures var role := Upper(Or(t.role, "user"));
      && role + ": " <= line
      && |line| <= |role| + 2 + 200
  {
    Upper(Or(t.role, "user")) + ": " + Take(Or(t.content, ""), 200)
  }

  /** The lines of the last (at most) six turns, oldest first. */
  function HistoryLines(history: seq<Turn>): (lines: seq<string>)
    ensures |lines| == if |history| < 6 then |history| else 6
    ensures forall i :: 0 <= i < |lines| ==> lines[i] == HistoryLine(history[|history| - |lines| + i])
  {
    var recent := Last(history, 6);
    seq(|recent|, i requires 0 <= i < |recent| => HistoryLine(recent[i]))
  }

  /** `_history_string`: "None" for no history, else the lines joined by newlines. */
  function HistoryString(history: seq<Turn>): (r: string)
    ensures history == [] ==> r == "None"
    ensures history != [] ==> r == Join(HistoryLines(history), "\n")
  {
    if history == [] then "None" else Join(HistoryLines(history), "\n")
  }

  /** The user message the classifier receives. */
  function UserContent(text: string, history: seq<Turn>, showInt: nat -> string): string {
    "Conversation history:\n" + HistoryString(history) + "\n" + SessionRiskSummary(history, showInt)
    + "\n\nCurrent message to classify:\n\"" + text + "\"\n"
  }

  // ----- the classifier reply ---------------------------------------------------------

  /** A risky segment; `None` is a missing key. */
  datatype Segment = Segment(segment: Option<string>, reason: Option<string>)

  /** The classifier's JSON object; `None` is a missing (or null) key, and for the risky
      segments also a value that is empty or not a list. */
  datatype Reply = Reply(
    riskLevel: Option<string>,
    attackType: Option<string>,
    action: Option<string>,
    domainScope: Option<string>,
    reasoning: Option<string>,
    explanation: Option<string>,
    confidence: Option<real>,
    riskScore: Option<real>,
    riskySegments: Option<seq<Segment>>,
    suggestedSanitizedPrompt: Option<string>)

  /** The safe reply with the given reasoning. */
  function SafeReply(reasoning: string): (r: Reply)
    ensures r.riskLevel == Some("safe") && r.action == Some("ALLOW") && r.reasoning == Some(reasoning)
  {
    Reply(Some("safe"), Some("NONE"), Some("ALLOW"), Some("IN_SCOPE"), Some(reasoning), Some(""),
          Some(0.5), Some(0.0), Some([]), Some(""))
  }

  /** The classifier call: an exception, or the reply with its JSON object (if any). */
  datatype LlmCall = LlmFailed(error: string) | LlmReplied(parsed: Option<Reply>)

  /** `_parse_governance_response` and the exception handler around the call. */
  function ReplyOf(call: LlmCall): (r: Reply)
    ensures call.LlmReplied? && call.parsed.Some? ==> r == call.parsed.value
    ensures call.LlmReplied? && call.parsed.None? ==> r == SafeReply("Parse error \U{2014} defaulting to safe")
    ensures call.LlmFailed? ==> r == SafeReply("LLM error \U{2014} defaulting safe: " + call.error)
  {
    match call
      case LlmFailed(e) => SafeReply("LLM error \U{2014} defaulting safe: " + e)
      case LlmReplied(parsed) =>
        if parsed.Some? then parsed.value else SafeReply("Parse error \U{2014} defaulting to safe")
  }

  // ----- normalisation ----------------------------------------------------------------

  /** The upper-cased value (or default) when it is one of `allowed`, else the default. */
  function Normalised(x: Option<string>, default: string, allowed: seq<string>): (r: string)
    ensures default in allowed ==> r in allowed
    ensures Upper(Or(x, default)) in allowed ==> r == Upper(Or(x, default))
    ensures Upper(Or(x, default)) !in allowed ==> r == default
  {
    var u := Upper(Or(x, default));
    if u in allowed then u else default
  }

  /** `_map_risk_to_classification`: MALICIOUS for a malicious risk level or scope, else
      the scope when it needs authentication or is out of scope, else SAFE. */
  function MapRiskToClassification(riskLevel: string, domainScope: string): (r: string)
    ensures r in Classifications
    ensures r == "MALICIOUS" <==>
      Lower(if riskLevel == "" then "safe" else riskLevel) == "malicious" || Upper(domainScope) == "MALICIOUS"
    ensures r != "MALICIOUS" && domainScope in ["REQUIRES_AUTH", "OUT_OF_SCOPE"] ==> r == domainScope
    ensures r != "MALICIOUS" && domainScope !in ["REQUIRES_AUTH", "OUT_OF_SCOPE"] ==> r == "SAFE"
  {
    var level := Lower(if riskLevel == "" then "safe" else riskLevel);
    if level == "malicious" || Upper(domainScope) == "MALICIOUS" then "MALICIOUS"
    else if domainScope in ["REQUIRES_AUTH", "OUT_OF_SCOPE"] then domainScope
    else "SAFE"
  }

  // ----- the explainable record -------------------------------------------------------

  datatype GovAnalysis = GovAnalysis(
    threatType: string, threatDescription: string, triggeredRules: seq<string>,
    ruleDescriptions: seq<string>, confidenceFactors: seq<string>, confidenceScore: real,
    riskScore: real, riskySegments: seq<Segment>)

  datatype GovExplainable = GovExplainable(decision: string, analysis: GovAnalysis,
                                           explanations: E.Explanations, compliance: E.Compliance)

  /** The reason of every segment (empty when it has none), in order. */
  function Reasons(segments: seq<Segment>): (r: seq<string>)
    ensures |r| == |segments|
    ensures forall i :: 0 <= i < |segments| ==> r[i] == (if segments[i].reason.Some? then segments[i].reason.value else "")
  {
    seq(|segments|, i requires 0 <= i < |segments| =>
      if segments[i].reason.Some? then segments[i].reason.value else "")
  }

  /** `_build_explainable`: a record of the decision with no triggered rules, the segment
      reasons as confidence factors, the reasoning as both the technical and the internal
      explanation, no user-safe text, and the scope's compliance flags. */
  function BuildExplainable(classification: string, action: string, attackType: string, domainScope: string,
                            reasoning: string, confidence: real, riskScore: real,
                            segments: seq<Segment>): (r: GovExplainable)
    ensures r.decision == action
    ensures r.analysis.triggeredRules == [] && r.analysis.ruleDescriptions == []
    ensures r.analysis.confidenceFactors == Reasons(segments) && r.analysis.riskySegments == segments
    ensures r.analysis.threatType == attackType && r.analysis.threatDescription == E.AttackDescription(attackType)
    ensures r.explanations.technical == reasoning && r.explanations.internalReasoning == reasoning
    ensures r.explanations.userSafe == E.NoNotice
    ensures r.compliance.requiresAuthentication <==> domainScope == "REQUIRES_AUTH"
    ensures r.compliance.inScope <==> domainScope == "IN_SCOPE" || domainScope == "REQUIRES_AUTH"
    ensures r.compliance.classification == classification && r.compliance.domainScope == domainScope
  {
    GovExplainable(
      action,
      GovAnalysis(attackType, E.AttackDescription(attackType), [], [], Reasons(segments),
                  confidence, riskScore, segments),
      E.Explanations(reasoning, E.NoNotice, reasoning),
      E.Compliance(domainScope, classification, domainScope == "REQUIRES_AUTH",
                   domainScope in ["IN_SCOPE", "REQUIRES_AUTH"]))
  }

  // ----- the analysis result ----------------------------------------------------------

  /** The suggested rewrite offered with a warning. */
  datatype Suggestion = Suggestion(originalPrompt: string, sanitizedPrompt: string,
                                   actions: seq<(string, string)>)

  /** The analysis dictionary. */
  datatype GovResult = GovResult(
    verdict: Verdict,
    matchedPattern: Option<string>,
    riskySegments: seq<Segment>,
    explainable: GovExplainable,
    sanitization: Option<Suggestion>,
    wasSanitized: bool,
    attackChain: AC.ChainAnalysis)

  /** The chain result that reports no escalation. */
  const NoEscalation := AC.ChainAnalysis(false, 0.0, AC.Graph([], []), [], None)

  /** `_fast_rule_check`'s block: the pattern's verdict, the first 200 characters of the
      text as the one risky segment, and no escalation. */
  function FastResult(text: string, pattern: string): (r: GovResult)
    ensures r.verdict == FastVerdict(pattern) && r.matchedPattern == Some(pattern)
    ensures r.riskySegments == [Segment(Some(Take(text, 200)), Some("Known attack pattern"))]
    ensures r.explainable.decision == "BLOCK" && r.explainable.analysis.confidenceFactors == []
    ensures r.sanitization.None? && !r.wasSanitized && r.attackChain == NoEscalation
  {
    var v := FastVerdict(pattern);
    GovResult(v, Some(pattern), [Segment(Some(Take(text, 200)), Some("Known attack pattern"))],
              BuildExplainable("MALICIOUS", "BLOCK", "FAST_RULE", "MALICIOUS", v.reasoning, 1.0, 1.0, []),
              None, false, NoEscalation)
  }

  /** The sanitization stage: a warning with a non-empty suggestion that differs from the
      text offers it, with one removal per risky segment. */
  function Suggest(text: string, action: string, suggested: string, segments: seq<Segment>): (r: Option<Suggestion>)
    ensures r.Some? <==> action == "WARN" && suggested != "" && suggested != text
    ensures r.Some? ==>
      && r.value.originalPrompt == text && r.value.sanitizedPrompt == suggested
      && |r.value.actions| == |segments|
  {
    if action == "WARN" && suggested != "" && suggested != text then
      Some(Suggestion(text, suggested,
        seq(|segments|, i requires 0 <= i < |segments| =>
          (if segments[i].segment.Some? then segments[i].segment.value else "",
           if segments[i].reason.Some? then segments[i].reason.value else ""))))
    else None
  }

  /** The normalised classification of a reply, before the escalation re-score. */
  function Assess(reply: Reply, text: string): (r: GovResult)
    ensures r.verdict.action in Actions && r.verdict.domainScope in ScopeValues
    ensures r.verdict.attackType in AttackTypes && r.verdict.classification in Classifications
    ensures r.verdict.classification == MapRiskToClassification(Lower(Or(reply.riskLevel, "safe")), r.verdict.domainScope)
    ensures r.verdict.confidence == (if reply.confidence.Some? then reply.confidence.value else 0.5)
    ensures r.verdict.riskScore == (if reply.riskScore.Some? then reply.riskScore.value else 0.0)
    ensures r.explainable == BuildExplainable(r.verdict.classification, r.verdict.action, r.verdict.attackType,
                                              r.verdict.domainScope, r.verdict.reasoning, r.verdict.confidence,
                                              r.verdict.riskScore, r.riskySegments)
    ensures r.wasSanitized <==> r.sanitization.Some?
    ensures var suggested := Strip(Or(reply.suggestedSanitizedPrompt, ""));
      && (r.wasSanitized <==> r.verdict.action == "WARN" && suggested != "" && suggested != text)
      && (r.wasSanitized ==> r.sanitization.value.sanitizedPrompt == suggested)
    ensures r.matchedPattern.None? && r.attackChain == NoEscalation
  {
    var action := Normalised(reply.action, "ALLOW", Actions);
    var scope := Normalised(reply.domainScope, "IN_SCOPE", ScopeValues);
    var attack := Normalised(reply.attackType, "NONE", AttackTypes);
    var classification := MapRiskToClassification(Lower(Or(reply.riskLevel, "safe")), scope);
    var confidence := if reply.confidence.Some? then reply.confidence.value else 0.5;
    var risk := if reply.riskScore.Some? then reply.riskScore.value else 0.0;
    var segments := if reply.riskySegments.Some? then reply.riskySegments.value else [];
    var suggested := Strip(Or(reply.suggestedSanitizedPrompt, ""));
    var reasoning := Or(reply.reasoning, "");
    var s := Suggest(text, action, suggested, segments);
    GovResult(Verdict(classification, action, attack, scope, reasoning, Or(reply.explanation, ""), confidence, risk),
              None, segments,
              BuildExplainable(classification, action, attack, scope, reasoning, confidence, risk, segments),
              s, s.Some?, NoEscalation)
  }

  /** A failed or unparsable classifier call is judged SAFE, ALLOW, IN_SCOPE and NONE at
      confidence 0.5 and risk 0, offers no rewrite and is explained as in scope. */
  lemma FailureIsSafe(call: LlmCall, text: string)
    requires call.LlmFailed? || call.parsed.None?
    ensures var r := Assess(ReplyOf(call), text);
      && r.verdict.classification == "SAFE" && r.verdict.action == "ALLOW"
      && r.verdict.domainScope == "IN_SCOPE" && r.verdict.attackType == "NONE"
      && r.verdict.confidence == 0.5 && r.verdict.riskScore == 0.0
      && !r.wasSanitized && r.explainable.compliance.inScope
  {
    var reasoning := if call.LlmFailed? then "LLM error \U{2014} defaulting safe: " + call.error
                     else "Parse error \U{2014} defaulting to safe";
    assert ReplyOf(call) == SafeReply(reasoning);
    SafeReplyIsSafe(reasoning, text);
  }

  /** The safe default reply assesses as SAFE / ALLOW / IN_SCOPE with no sanitisation. */
  lemma SafeReplyIsSafe(reasoning: string, text: string)
    ensures var r := Assess(SafeReply(reasoning), text);
      && r.verdict.classification == "SAFE" && r.verdict.action == "ALLOW"
      && r.verdict.domainScope == "IN_SCOPE" && r.verdict.attackType == "NONE"
      && r.verdict.confidence == 0.5 && r.verdict.riskScore == 0.0
      && !r.wasSanitized && r.explainable.compliance.inScope
  {
    assert Upper("ALLOW") == "ALLOW";
    assert Upper("IN_SCOPE") == "IN_SCOPE";
    assert Upper("NONE") == "NONE";
    assert Lower("safe") == "safe";
  }

  /** The escalation re-score; a forced block also replaces the user-safe explanation, but
      the explained decision stays the classifier's action. */
  function EscalateResult(a: GovResult, chain: AC.ChainAnalysis): (r: GovResult)
    ensures r.verdict == Escalated(a.verdict, chain.escalationDetected, chain.escalationScore)
    ensures r.attackChain == chain && r.explainable.decision == a.explainable.decision
    ensures ForcedBlock(a.verdict, chain.escalationDetected, chain.escalationScore) ==>
      r.explainable.explanations.userSafe == E.EscalationNotice
    ensures !ForcedBlock(a.verdict, chain.escalationDetected, chain.escalationScore) ==> r.explainable == a.explainable
    ensures r == a.(verdict := r.verdict, attackChain := chain, explainable := r.explainable)
  {
    var e := a.explainable;
    var explained :=
      if ForcedBlock(a.verdict, chain.escalationDetected, chain.escalationScore) then
        e.(explanations := e.explanations.(userSafe := E.EscalationNotice))
      else e;
    a.(verdict := Escalated(a.verdict, chain.escalationDetected, chain.escalationScore),
       attackChain := chain, explainable := explained)
  }

  /** The re-score keeps every field within its vocabulary. */
  lemma EscalateKeepsVocabulary(a: GovResult, chain: AC.ChainAnalysis)
    requires a.verdict.action in Actions && a.verdict.classification in Classifications
    ensures var r := EscalateResult(a, chain);
      r.verdict.action in Actions && r.verdict.classification in Classifications
      && r.verdict.domainScope == a.verdict.domainScope && r.verdict.attackType == a.verdict.attackType
  {
  }

  // ----- the engine -------------------------------------------------------------------

  /** The collaborators and settings the engine runs with. */
  datatype Env = Env(
    fastRules: seq<FastRule>,
    classify: string -> LlmCall,
    detectorAvailable: bool,
    nowIso: string,
    showInt: nat -> string)

  /** `_fast_rule_check`: the block for the first pattern that matches the lower-cased,
      stripped text, or nothing. */
  method FastRuleCheck(env: Env, text: string) returns (r: Option<GovResult>)
    ensures var m := FirstMatch(env.fastRules, FastRuleInput(text));
      && (r.Some? <==> m.Some?)
      && (r.Some? ==> r.value == FastResult(text, env.fastRules[m.value].1))
  {
    var i := FindFastRule(env.fastRules, text);
    if i.Some? {
      return Some(FastResult(text, env.fastRules[i.value].1));
    }
    return None;
  }

  /** `_evaluate_session_escalation`: the chain detector's analysis after adding the
      turn (its first 200 characters, with the classification as intent), or no
      escalation when the detector cannot be reached. */
  method EvaluateSessionEscalation(env: Env, chains: AC.AttackChainDetector, text: string, sessionId: string,
                                   v: Verdict) returns (r: AC.ChainAnalysis)
    requires chains.Valid()
    modifies chains
    ensures chains.Valid()
    ensures env.detectorAvailable ==>
      && chains.sessions == old(chains.sessions)[sessionId :=
           AC.Appended(old(chains.Session(sessionId)), chains.maxHistory, Take(text, 200), v.classification,
                       v.riskScore, v.classification, v.attackType, env.nowIso)]
      && r == AC.AnalyzeChain(chains.Session(sessionId))
    ensures !env.detectorAvailable ==> r == NoEscalation && chains.sessions == old(chains.sessions)
  {
    if !env.detectorAvailable {
      return NoEscalation;
    }
    r := chains.AddTurn(sessionId, Take(text, 200), v.classification, v.riskScore, v.classification,
                        v.attackType, env.nowIso);
  }

  /** `analyze`: a fast-rule block, or the normalised classification re-scored by the
      session's escalation. */
  method Analyze(env: Env, chains: AC.AttackChainDetector, text: string, sessionId: string,
                 history: seq<Turn>) returns (r: GovResult)
    requires chains.Valid()
    modifies chains
    ensures chains.Valid()
    ensures var m := FirstMatch(env.fastRules, FastRuleInput(text));
      m.Some? ==> r == FastResult(text, env.fastRules[m.value].1) && chains.sessions == old(chains.sessions)
    ensures FirstMatch(env.fastRules, FastRuleInput(text)).None? ==>
      var a := Assess(ReplyOf(env.classify(UserContent(text, history, env.showInt))), text);
      && r == EscalateResult(a, r.attackChain)
      && (env.detectorAvailable ==>
            && chains.sessions == old(chains.sessions)[sessionId :=
                 AC.Appended(old(chains.Session(sessionId)), chains.maxHistory, Take(text, 200),
                             a.verdict.classification, a.verdict.riskScore, a.verdict.classification,
                             a.verdict.attackType, env.nowIso)]
            && r.attackChain == AC.AnalyzeChain(chains.Session(sessionId)))
      && (!env.detectorAvailable ==> chains.sessions == old(chains.sessions))
      && (!env.detectorAvailable ==> r.attackChain == NoEscalation)
      && r.verdict.action in Actions && r.verdict.classification in Classifications
      && r.verdict.domainScope in ScopeValues && r.verdict.attackType in AttackTypes
  {
    var fast := FastRuleCheck(env, text);
    if fast.Some? {
      return fast.value;
    }
    var reply := ReplyOf(env.classify(UserContent(text, history, env.showInt)));
    var a := Assess(reply, text);
    var chain := EvaluateSessionEscalation(env, chains, text, sessionId, a.verdict);
    r := EscalateResult(a, chain);
    EscalateKeepsVocabulary(a, chain);
  }
}
