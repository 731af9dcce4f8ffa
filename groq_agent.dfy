/** The layered security analysis: fast rules, then the classifier model, the threat
    memory boost and record, the self-critic, sanitise-and-retry for borderline verdicts,
    the multi-turn escalation re-score and the explainable decision. */
module GroqAgent {
  import opened Util
  import opened Verdicts
  import SC = SelfCritic
  import S = Sanitizer
  import TM = ThreatMemory
  import AC = AttackChain
  import E = Explainability

  /** A history entry as the caller passes it. */
  datatype HistoryTurn = HistoryTurn(role: string, content: string, riskScore: real)

  /** The classifier model's call: an exception, or the reply parsed (or not). */
  datatype ClassifierCall = ClassifierFailed(error: string) | Replied(parsed: Option<Verdict>)

  /** The collaborators and settings the analysis runs with. */
  datatype Env = Env(
    fastRules: seq<FastRule>,
    sanitizerPatterns: seq<S.Pattern>,
    sanitizationEnabled: bool,
    criticThreshold: real,
    classify: (string, seq<HistoryTurn>) -> ClassifierCall,
    critic: (string, Verdict) -> SC.CriticCall,
    ruleSearches: E.RuleSearches,
    fmt: real -> string,
    now: int,
    nowIso: string,
    sha256Hex: string -> string,
    encode: string -> Option<TM.Embedding>,
    cosine: (TM.Embedding, TM.Embedding) -> real)

  /** The analysis dictionary. */
  datatype Analysis = Analysis(
    verdict: Verdict,
    matchedPattern: Option<string>,
    matchedAttackId: Option<string>,
    similarityScore: real,
    historicalFrequency: nat,
    critic: Option<SC.CriticRun>,
    sanitization: Option<S.Sanitization>,
    wasSanitized: bool,
    originalBlockedBy: Option<string>,
    attackChain: Option<AC.ChainAnalysis>,
    explainable: Option<E.Explainable>)

  // ----- fast rules -------------------------------------------------------------------

  /** The dictionary `fast_rule_check` returns for a matching pattern. */
  function FastBlock(env: Env, text: string, pattern: string): Analysis {
    var v := FastVerdict(pattern);
    Analysis(v, Some(pattern), None, 0.0, 0, None, None, false, None, None,
             Some(E.ExplainableDecision(env.ruleSearches, "MALICIOUS", "BLOCK", "FAST_RULE", "MALICIOUS",
                                        v.reasoning, 1.0, 1.0, text, 0.0, 0.0, env.fmt)))
  }

  /** `fast_rule_check`: the block for the first pattern that matches the lower-cased,
      stripped text, or nothing. */
  method FastRuleCheck(env: Env, text: string) returns (r: Option<Analysis>)
    ensures var m := FirstMatch(env.fastRules, FastRuleInput(text));
      && (r.Some? <==> m.Some?)
      && (r.Some? ==> r.value == FastBlock(env, text, env.fastRules[m.value].1))
  {
    var i := FindFastRule(env.fastRules, text);
    if i.Some? {
      return Some(FastBlock(env, text, env.fastRules[i.value].1));
    }
    return None;
  }

  /** The fast block is a MALICIOUS FAST_RULE block at full risk and confidence, names its
      pattern, and explains a block with nothing recalled and no session risk. */
  lemma FastBlockContract(env: Env, text: string, pattern: string)
    ensures var a := FastBlock(env, text, pattern);
      && a.verdict.action == "BLOCK" && a.verdict.classification == "MALICIOUS"
      && a.verdict.attackType == "FAST_RULE" && a.verdict.riskScore == 1.0 && a.verdict.confidence == 1.0
      && a.matchedPattern == Some(pattern) && !a.wasSanitized
      && a.explainable.Some? && a.explainable.value.decision == "BLOCK"
      && a.explainable.value.analysis.threatMemorySimilarity.None?
      && a.explainable.value.analysis.sessionRiskLevel.None?
      && "RULE_14" !in a.explainable.value.analysis.triggeredRules
      && "RULE_13" !in a.explainable.value.analysis.triggeredRules
  {
    E.ExplainableDecisionContract(env.ruleSearches, "MALICIOUS", "BLOCK", "FAST_RULE", "MALICIOUS",
                                  FastVerdict(pattern).reasoning, 1.0, 1.0, text, 0.0, 0.0, env.fmt);
  }

  // ----- the classifier ---------------------------------------------------------------

  /** `parse_groq_response` and the exception handler around the call: the parsed verdict,
      or the safe fallback. */
  function ClassifierVerdict(call: ClassifierCall): (v: Verdict)
    ensures call.Replied? && call.parsed.Some? ==> v == call.parsed.value
    ensures call.Replied? && call.parsed.None? ==> v == SafeFallback("Parse error \U{2014} defaulting to safe")
    ensures call.ClassifierFailed? ==> v == SafeFallback("Groq error \U{2014} defaulting safe: " + call.error)
  {
    match call
      case ClassifierFailed(e) => SafeFallback("Groq error \U{2014} defaulting safe: " + e)
      case Replied(parsed) => if parsed.Some? then parsed.value else SafeFallback("Parse error \U{2014} defaulting to safe")
  }

  /** Any failure of the classifier degrades to SAFE / ALLOW / IN_SCOPE, confidence 0.5,
      risk 0. */
  lemma ClassifierFailureIsSafe(call: ClassifierCall)
    requires call.ClassifierFailed? || call.parsed.None?
    ensures var v := ClassifierVerdict(call);
      v.classification == "SAFE" && v.action == "ALLOW" && v.domainScope == "IN_SCOPE"
      && v.attackType == "NONE" && v.confidence == 0.5 && v.riskScore == 0.0
  {
  }

  // ----- threat memory ----------------------------------------------------------------

  /** The threat-memory boost: a recall at or above the threshold adds the boost to the
      risk, capped at 1, and prefixes the reasoning; otherwise nothing changes. */
  function MemoryBoost(v: Verdict, similarity: real, threshold: real, boost: real,
                       fmt: real -> string): (r: Verdict)
    ensures similarity < threshold ==> r == v
    ensures similarity >= threshold ==>
      r.riskScore == Min(1.0, v.riskScore + boost)
      && r.reasoning == "Threat memory matched (score=" + fmt(similarity) + "). " + v.reasoning
    ensures boost >= 0.0 && v.riskScore <= 1.0 ==> v.riskScore <= r.riskScore <= 1.0
    ensures r == v.(riskScore := r.riskScore, reasoning := r.reasoning)
  {
    if similarity >= threshold then
      v.(riskScore := Min(1.0, v.riskScore + boost),
         reasoning := "Threat memory matched (score=" + fmt(similarity) + "). " + v.reasoning)
    else v
  }

  /** A verdict is stored in threat memory when it is MALICIOUS or a block, in any case. */
  predicate ShouldRecord(v: Verdict) {
    Upper(v.classification) == "MALICIOUS" || Upper(v.action) == "BLOCK"
  }

  // ----- session risk -----------------------------------------------------------------

  function RiskSum(turns: seq<HistoryTurn>): real
    decreases |turns|
  {
    if turns == [] then 0.0 else RiskSum(turns[..|turns| - 1]) + turns[|turns| - 1].riskScore
  }

  /** The session risk the explanation reports: the mean risk of the last (at most) ten
      history entries, 0 for no history. */
  function SessionRisk(history: seq<HistoryTurn>): real {
    var recent := Last(history, 10);
    RiskSum(recent) / (if |recent| > 1 then |recent| else 1) as real
  }

  predicate RisksInUnit(turns: seq<HistoryTurn>) {
    forall i :: 0 <= i < |turns| ==> 0.0 <= turns[i].riskScore <= 1.0
  }

  lemma {:induction false} RiskSumBounds(turns: seq<HistoryTurn>)
    requires RisksInUnit(turns)
    ensures 0.0 <= RiskSum(turns) <= |turns| as real
    decreases |turns|
  {
    if turns != [] {
      var init := turns[..|turns| - 1];
      assert RisksInUnit(init) by {
        forall i | 0 <= i < |init| ensures 0.0 <= init[i].riskScore <= 1.0 {
          assert init[i] == turns[i];
        }
      }
      RiskSumBounds(init);
    }
  }

  /** The mean of risks in [0, 1] is in [0, 1], and no history means no session risk. */
  lemma SessionRiskBounds(history: seq<HistoryTurn>)
    ensures history == [] ==> SessionRisk(history) == 0.0
    ensures RisksInUnit(history) ==> 0.0 <= SessionRisk(history) <= 1.0
  {
    var recent := Last(history, 10);
    if RisksInUnit(history) {
      assert RisksInUnit(recent) by {
        forall i | 0 <= i < |recent| ensures 0.0 <= recent[i].riskScore <= 1.0 {
          assert recent[i] == history[|history| - |recent| + i];
        }
      }
      RiskSumBounds(recent);
      var n := (if |recent| > 1 then |recent| else 1) as real;
      assert RiskSum(recent) <= n;
      DivideAtMost(RiskSum(recent), n);
    }
  }

  lemma DivideAtMost(x: real, n: real)
    requires n >= 1.0 && 0.0 <= x <= n
    ensures 0.0 <= x / n <= 1.0
  {
  }

  // ----- escalation -------------------------------------------------------------------

  const EscalationMessage := "Multi-turn attack escalation detected. Session blocked."

  /** The escalation re-score with the user explanation replaced when it forces a block. */
  function EscalateVerdict(v: Verdict, chain: AC.ChainAnalysis): Verdict {
    var e := Escalated(v, chain.escalationDetected, chain.escalationScore);
    if ForcedBlock(v, chain.escalationDetected, chain.escalationScore) then e.(explanation := EscalationMessage) else e
  }

  /** The re-score with a saturated (0 or 1) escalation score. */
  lemma EscalateSaturated(v: Verdict, chain: AC.ChainAnalysis)
    requires chain.escalationScore == (if chain.escalationDetected then 1.0 else 0.0)
    ensures var r := EscalateVerdict(v, chain);
      && (!chain.escalationDetected ==> r == v)
      && (chain.escalationDetected ==> r.riskScore == Min(1.0, v.riskScore + 0.5))
      && (chain.escalationDetected && v.riskScore > 0.3 ==> r.action == "BLOCK")
      && (chain.escalationDetected && v.riskScore <= 0.3 ==> r.action == v.action)
      && (v.action == "BLOCK" ==> r.action == "BLOCK")
      && (v.riskScore <= 1.0 ==> v.riskScore <= r.riskScore <= 1.0)
  {
  }

  /** With the chain detector's saturating score, a detected escalation adds 0.5 to the
      risk (capped at 1) and blocks every verdict whose risk was above 0.3; an undetected
      one changes nothing. A block stays a block, and a risk in [0, 1] never drops. */
  lemma EscalateAfterTurn(v: Verdict, turns: seq<AC.TurnNode>)
    ensures var chain := AC.AnalyzeChain(turns);
      var r := EscalateVerdict(v, chain);
      && (!chain.escalationDetected ==> r == v)
      && (chain.escalationDetected ==> r.riskScore == Min(1.0, v.riskScore + 0.5))
      && (chain.escalationDetected && v.riskScore > 0.3 ==> r.action == "BLOCK")
      && (chain.escalationDetected && v.riskScore <= 0.3 ==> r.action == v.action)
      && (v.action == "BLOCK" ==> r.action == "BLOCK")
      && (v.riskScore <= 1.0 ==> v.riskScore <= r.riskScore <= 1.0)
  {
    AC.ScoreIsZeroOrOne(turns);
    EscalateSaturated(v, AC.AnalyzeChain(turns));
  }

  // ----- the analysis -----------------------------------------------------------------

  /** The text the explanation describes: the sanitized prompt when it was used. */
  function ExplainedText(text: string, sanitization: Option<S.Sanitization>, wasSanitized: bool): string {
    if wasSanitized && sanitization.Some? then sanitization.value.sanitized else text
  }

  /** A used sanitization: a real one of this text, whose non-blank result is shorter. */
  predicate SanitizedFrom(a: Analysis, text: string, patterns: seq<S.Pattern>) {
    && a.sanitization.Some? && a.sanitization.value.wasSanitized
    && a.sanitization.value == S.Sanitize(text, patterns)
    && !Blank(a.sanitization.value.sanitized) && |a.sanitization.value.sanitized| < |text|
  }

  /** The analysis carries an explanation of the action it ends with. */
  predicate Explained(a: Analysis) {
    a.explainable.Some? && a.explainable.value.decision == a.verdict.action
  }

  /** What a fast-rule hit ends in: the analysis of the sanitized prompt when it is
      allowed or warned, otherwise the recorded block of the pattern. */
  predicate FastOutcome(r: Analysis, pattern: string) {
    if r.wasSanitized then
      r.originalBlockedBy == Some("FAST_RULE") && r.verdict.action in ["ALLOW", "WARN"]
    else
      r.verdict == FastVerdict(pattern) && r.matchedAttackId.Some? && r.matchedPattern == Some(pattern)
  }

  /** Sanitisation is on and leaves something to analyse again: the prompt was changed
      and what remains is not blank. */
  predicate SanitizesToContent(env: Env, text: string) {
    var s := S.Sanitize(text, env.sanitizerPatterns);
    env.sanitizationEnabled && s.wasSanitized && !Blank(s.sanitized)
  }

  /** The borderline stage analyses the sanitized prompt again for this verdict. */
  predicate Retries(env: Env, text: string, v: Verdict) {
    S.ShouldSanitize(v.classification, v.action, v.riskScore) && SanitizesToContent(env, text)
  }

  /** The classifier's verdict after the threat-memory boost for the recalled similarity. */
  function BoostedVerdict(env: Env, memory: TM.ThreatMemory, text: string, history: seq<HistoryTurn>,
                          similarity: real): Verdict {
    MemoryBoost(ClassifierVerdict(env.classify(text, history)), similarity, memory.similarityThreshold,
                memory.riskBoost, env.fmt)
  }

  /** The explainable decision of an analysis's final verdict, over the text it used, the
      recalled similarity and the mean risk of the last ten history entries. */
  function Explanation(env: Env, a: Analysis, text: string, similarity: real, history: seq<HistoryTurn>): E.Explainable {
    E.ExplainableDecision(env.ruleSearches, a.verdict.classification, a.verdict.action, a.verdict.attackType,
                          a.verdict.domainScope, a.verdict.reasoning, a.verdict.confidence, a.verdict.riskScore,
                          ExplainedText(text, a.sanitization, a.wasSanitized), similarity, SessionRisk(history),
                          env.fmt)
  }

  /** The memory holds what `record_attack` of `text` leaves after `oldT` and `oldE`, and
      `id` is its answer. */
  ghost predicate RecordedIn(env: Env, memory: TM.ThreatMemory, oldT: seq<TM.Threat>, oldE: seq<TM.Embedding>,
                             text: string, attackType: string, sessionId: string, id: string)
    reads memory
  {
    TM.Recorded(oldT, oldE, memory.threats, memory.embeddings, id, memory.hasModel, memory.maxThreats,
                text, attackType, sessionId, env.now, env.sha256Hex, env.encode)
  }

  /** A verdict that is malicious or a block is recorded with its attack type and `id` is
      the answer; any other verdict leaves the memory as it was. */
  ghost predicate MemoryAfter(env: Env, memory: TM.ThreatMemory, oldT: seq<TM.Threat>, oldE: seq<TM.Embedding>,
                              text: string, sessionId: string, v: Verdict, id: Option<string>)
    reads memory
  {
    && (ShouldRecord(v) ==> id.Some? && RecordedIn(env, memory, oldT, oldE, text, v.attackType, sessionId, id.value))
    && (!ShouldRecord(v) ==> memory.threats == oldT && memory.embeddings == oldE)
  }

  /** The chain detector's sessions are `oldSessions` with this turn added to the session,
      the verdict's scope as its intent. */
  ghost predicate TurnAdded(env: Env, chains: AC.AttackChainDetector, oldSessions: map<string, seq<AC.TurnNode>>,
                            text: string, sessionId: string, v: Verdict)
    reads chains
  {
    chains.sessions == oldSessions[sessionId :=
      AC.Appended(if sessionId in oldSessions then oldSessions[sessionId] else [], chains.maxHistory, text,
                  v.domainScope, v.riskScore, v.classification, v.attackType, env.nowIso)]
  }

  /** `analyze`. The threat memory and the chain detector are the shared stores the
      analysis reads and updates; every other collaborator is in `env`. A fast-rule hit
      with nothing to re-analyse records the text once as FAST_RULE and leaves the chains
      alone. Otherwise the explanation is the final verdict's, the chain analysis is the
      session's after this turn, and, unless a sanitized prompt was analysed again, the
      memory and the session changed only by this text's record and turn. */
  method Analyze(env: Env, memory: TM.ThreatMemory, chains: AC.AttackChainDetector, text: string,
                 sessionId: string, history: seq<HistoryTurn>) returns (r: Analysis)
    requires memory.Valid() && chains.Valid()
    modifies memory, chains
    ensures memory.Valid() && chains.Valid()
    ensures Explained(r)
    ensures r.wasSanitized ==> SanitizedFrom(r, text, env.sanitizerPatterns)
    ensures var m := FirstMatch(env.fastRules, FastRuleInput(text));
      m.Some? ==> FastOutcome(r, env.fastRules[m.value].1)
    ensures FirstMatch(env.fastRules, FastRuleInput(text)).Some? && !SanitizesToContent(env, text) ==>
      && !r.wasSanitized && r.matchedAttackId.Some? && chains.sessions == old(chains.sessions)
      && RecordedIn(env, memory, old(memory.threats), old(memory.embeddings), text, "FAST_RULE", sessionId,
                    r.matchedAttackId.value)
    ensures FirstMatch(env.fastRules, FastRuleInput(text)).None? ==>
      && r.attackChain == Some(AC.AnalyzeChain(chains.Session(sessionId)))
      && (!r.wasSanitized ==>
            var v := BoostedVerdict(env, memory, text, history, r.similarityScore);
            var run := SC.RunCritic(text, v, env.criticThreshold, env.critic);
            && r.explainable == Some(Explanation(env, r, text, r.similarityScore, history))
            && r.verdict == EscalateVerdict(run.finalDecision, r.attackChain.value)
            && (!Retries(env, text, run.finalDecision) ==>
                  && MemoryAfter(env, memory, old(memory.threats), old(memory.embeddings), text, sessionId, v,
                                 r.matchedAttackId)
                  && TurnAdded(env, chains, old(chains.sessions), text, sessionId, run.finalDecision)))
    decreases |text|, 2
  {
    var recalled := memory.Search(text, env.now, env.encode, env.cosine);
    var fast;
    ghost var threatsBefore, embeddingsBefore;
    fast, threatsBefore, embeddingsBefore := FastPath(env, memory, chains, text, sessionId, history, recalled);
    if fast.Some? {
      return fast.value;
    }
    r := ModelPath(env, memory, chains, text, sessionId, history, recalled);
  }

  /** Layer 1, the fast rules: nothing, with neither store changed, when no pattern
      matches. On a hit, a sanitized prompt that still has content is analysed again and
      used when allowed or warned; otherwise the text is recorded as FAST_RULE and blocked.
      `threatsBefore` and `embeddingsBefore` are the memory the record starts from: the
      initial one unless a sanitized prompt was analysed first. */
  method FastPath(env: Env, memory: TM.ThreatMemory, chains: AC.AttackChainDetector, text: string,
                  sessionId: string, history: seq<HistoryTurn>, recalled: TM.ThreatMatch)
    returns (r: Option<Analysis>, ghost threatsBefore: seq<TM.Threat>, ghost embeddingsBefore: seq<TM.Embedding>)
    requires memory.Valid() && chains.Valid()
    modifies memory, chains
    ensures memory.Valid() && chains.Valid()
    ensures var m := FirstMatch(env.fastRules, FastRuleInput(text));
      && (r.Some? <==> m.Some?)
      && (r.Some? ==> Explained(r.value) && FastOutcome(r.value, env.fastRules[m.value].1))
    ensures r.None? ==>
      && chains.sessions == old(chains.sessions)
      && memory.threats == old(memory.threats) && memory.embeddings == old(memory.embeddings)
    ensures r.Some? && r.value.wasSanitized ==> SanitizedFrom(r.value, text, env.sanitizerPatterns)
    ensures r.Some? && !r.value.wasSanitized ==>
      && r.value.similarityScore == recalled.similarityScore
      && r.value.historicalFrequency == recalled.historicalFrequency
      && RecordedIn(env, memory, threatsBefore, embeddingsBefore, text, "FAST_RULE", sessionId,
                    r.value.matchedAttackId.value)
    ensures r.Some? && !SanitizesToContent(env, text) ==>
      && !r.value.wasSanitized && chains.sessions == old(chains.sessions)
      && threatsBefore == old(memory.threats) && embeddingsBefore == old(memory.embeddings)
    decreases |text|, 1
  {
    threatsBefore, embeddingsBefore := memory.threats, memory.embeddings;
    var fast := FastRuleCheck(env, text);
    if fast.None? {
      return None, threatsBefore, embeddingsBefore;
    }
    ghost var pattern := env.fastRules[FirstMatch(env.fastRules, FastRuleInput(text)).value].1;
    var retried := FastRetry(env, memory, chains, text, sessionId, history);
    threatsBefore, embeddingsBefore := memory.threats, memory.embeddings;
    if retried.Some? {
      return retried, threatsBefore, embeddingsBefore;
    }
    var block := RecordFast(env, memory, text, sessionId, fast.value, pattern, recalled);
    r := Some(block);
  }

  /** The start of the fast path: a sanitized prompt that still has content is analysed
      again, and its analysis is kept when it allows or warns. */
  method FastRetry(env: Env, memory: TM.ThreatMemory, chains: AC.AttackChainDetector, text: string,
                   sessionId: string, history: seq<HistoryTurn>) returns (r: Option<Analysis>)
    requires memory.Valid() && chains.Valid()
    modifies memory, chains
    ensures memory.Valid() && chains.Valid()
    ensures r.Some? ==>
      && r.value.wasSanitized && SanitizedFrom(r.value, text, env.sanitizerPatterns) && Explained(r.value)
      && r.value.originalBlockedBy == Some("FAST_RULE") && r.value.verdict.action in ["ALLOW", "WARN"]
    ensures !SanitizesToContent(env, text) ==>
      && r.None? && chains.sessions == old(chains.sessions)
      && memory.threats == old(memory.threats) && memory.embeddings == old(memory.embeddings)
    decreases |text|, 0
  {
    if !env.sanitizationEnabled {
      return None;
    }
    var s := S.SanitizePrompt(text, env.sanitizerPatterns);
    if !s.wasSanitized || Blank(s.sanitized) {
      return None;
    }
    S.SanitizedShorter(text, env.sanitizerPatterns);
    assert s.sanitized != "";
    var retried := Analyze(env, memory, chains, s.sanitized, sessionId, history);
    if retried.verdict.action in ["ALLOW", "WARN"] {
      return Some(retried.(sanitization := Some(s), wasSanitized := true, originalBlockedBy := Some("FAST_RULE")));
    }
    return None;
  }

  /** The end of the fast path: the text is recorded as FAST_RULE and the block reports
      the record's id and the recall. */
  method RecordFast(env: Env, memory: TM.ThreatMemory, text: string, sessionId: string, fast: Analysis,
                    ghost pattern: string, recalled: TM.ThreatMatch) returns (r: Analysis)
    requires memory.Valid()
    requires fast == FastBlock(env, text, pattern)
    modifies memory
    ensures memory.Valid()
    ensures r == fast.(matchedAttackId := r.matchedAttackId, similarityScore := recalled.similarityScore,
                       historicalFrequency := recalled.historicalFrequency)
    ensures r.matchedAttackId.Some?
    ensures RecordedIn(env, memory, old(memory.threats), old(memory.embeddings), text, "FAST_RULE", sessionId,
                       r.matchedAttackId.value)
  {
    var id := memory.RecordAttack(text, fast.verdict.attackType, sessionId, env.now, env.sha256Hex, env.encode);
    r := fast.(matchedAttackId := Some(id), similarityScore := recalled.similarityScore,
               historicalFrequency := recalled.historicalFrequency);
  }

  /** No fast rule matched: classify, boost and record, critique, maybe sanitise and
      retry, add the turn to the chain, re-score and explain. */
  method ModelPath(env: Env, memory: TM.ThreatMemory, chains: AC.AttackChainDetector, text: string,
                   sessionId: string, history: seq<HistoryTurn>, recalled: TM.ThreatMatch)
    returns (r: Analysis)
    requires memory.Valid() && chains.Valid()
    modifies memory, chains
    ensures memory.Valid() && chains.Valid()
    ensures Explained(r)
    ensures r.wasSanitized ==> SanitizedFrom(r, text, env.sanitizerPatterns)
    ensures r.attackChain == Some(AC.AnalyzeChain(chains.Session(sessionId)))
    ensures r.explainable == Some(Explanation(env, r, text, recalled.similarityScore, history))
    ensures var v := BoostedVerdict(env, memory, text, history, recalled.similarityScore);
      var run := SC.RunCritic(text, v, env.criticThreshold, env.critic);
      && (!r.wasSanitized ==>
            && r.verdict == EscalateVerdict(run.finalDecision, r.attackChain.value)
            && r.critic == Some(run) && r.similarityScore == recalled.similarityScore)
      && (!Retries(env, text, run.finalDecision) ==>
            && !r.wasSanitized
            && MemoryAfter(env, memory, old(memory.threats), old(memory.embeddings), text, sessionId, v,
                           r.matchedAttackId)
            && (!ShouldRecord(v) ==> r.matchedAttackId == recalled.matchedAttackId)
            && TurnAdded(env, chains, old(chains.sessions), text, sessionId, run.finalDecision))
    decreases |text|, 1
  {
    var result := ModelVerdict(env, memory, text, sessionId, history, recalled);
    result := SanitizeStage(env, memory, chains, text, sessionId, result);
    r := Conclude(env, chains, text, sessionId, history, result, recalled.similarityScore);
  }

  /** The classifier's verdict, boosted by the recall and recorded when it is malicious or
      a block, then put to the self-critic. */
  method ModelVerdict(env: Env, memory: TM.ThreatMemory, text: string, sessionId: string,
                      history: seq<HistoryTurn>, recalled: TM.ThreatMatch) returns (r: Analysis)
    requires memory.Valid()
    modifies memory
    ensures memory.Valid()
    ensures var v := BoostedVerdict(env, memory, text, history, recalled.similarityScore);
      && r.critic == Some(SC.RunCritic(text, v, env.criticThreshold, env.critic))
      && r.verdict == r.critic.value.finalDecision
      && MemoryAfter(env, memory, old(memory.threats), old(memory.embeddings), text, sessionId, v, r.matchedAttackId)
      && (!ShouldRecord(v) ==> r.matchedAttackId == recalled.matchedAttackId)
      && r.similarityScore == recalled.similarityScore
      && r.historicalFrequency == recalled.historicalFrequency
      && r.matchedPattern.None? && r.sanitization.None? && !r.wasSanitized
      && r.originalBlockedBy.None? && r.attackChain.None? && r.explainable.None?
  {
    var v := ClassifierVerdict(env.classify(text, history));
    v := MemoryBoost(v, recalled.similarityScore, memory.similarityThreshold, memory.riskBoost, env.fmt);
    var attackId: Option<string>;
    if ShouldRecord(v) {
      var id := memory.RecordAttack(text, v.attackType, sessionId, env.now, env.sha256Hex, env.encode);
      attackId := Some(id);
    } else {
      attackId := recalled.matchedAttackId;
    }
    var run := SC.RunCritic(text, v, env.criticThreshold, env.critic);
    r := Analysis(run.finalDecision, None, attackId, recalled.similarityScore,
                  recalled.historicalFrequency, Some(run), None, false, None, None, None);
  }

  /** Adds the turn to the session's chain, re-scores the verdict by it and explains the
      re-scored decision; nothing else in the analysis changes. */
  method Conclude(env: Env, chains: AC.AttackChainDetector, text: string, sessionId: string,
                  history: seq<HistoryTurn>, result: Analysis, similarity: real) returns (r: Analysis)
    requires chains.Valid()
    modifies chains
    ensures chains.Valid()
    ensures TurnAdded(env, chains, old(chains.sessions), text, sessionId, result.verdict)
    ensures r.attackChain == Some(AC.AnalyzeChain(chains.Session(sessionId)))
    ensures r.verdict == EscalateVerdict(result.verdict, r.attackChain.value)
    ensures r.explainable == Some(Explanation(env, r, text, similarity, history))
    ensures Explained(r)
    ensures r == result.(verdict := r.verdict, attackChain := r.attackChain, explainable := r.explainable)
  {
    var f := result.verdict;
    var chain := chains.AddTurn(sessionId, text, f.domainScope, f.riskScore, f.classification, f.attackType, env.nowIso);
    var escalated := EscalateVerdict(f, chain);
    r := result.(verdict := escalated, attackChain := Some(chain));
    var explained := Explanation(env, r, text, similarity, history);
    E.ExplainableDecisionContract(env.ruleSearches, escalated.classification, escalated.action,
                                  escalated.attackType, escalated.domainScope, escalated.reasoning,
                                  escalated.confidence, escalated.riskScore,
                                  ExplainedText(text, result.sanitization, result.wasSanitized),
                                  similarity, SessionRisk(history), env.fmt);
    r := r.(explainable := Some(explained));
  }

  /** The sanitise-and-retry stage for borderline verdicts, through `sanitize_and_retry`:
      the retry runs without the history, and its analysis replaces the current one only
      when it allows or warns. Outside the borderline cases, or when sanitisation leaves
      nothing to analyse, neither store changes. */
  method SanitizeStage(env: Env, memory: TM.ThreatMemory, chains: AC.AttackChainDetector, text: string,
                       sessionId: string, current: Analysis) returns (r: Analysis)
    requires memory.Valid() && chains.Valid()
    modifies memory, chains
    ensures memory.Valid() && chains.Valid()
    ensures r.wasSanitized ==> SanitizedFrom(r, text, env.sanitizerPatterns)
    ensures !r.wasSanitized ==> r == current.(sanitization := r.sanitization, wasSanitized := false)
    ensures !(env.sanitizationEnabled && S.ShouldSanitize(current.verdict.classification, current.verdict.action,
                                                            current.verdict.riskScore)) ==>
      r == current.(wasSanitized := false)
    ensures env.sanitizationEnabled && S.ShouldSanitize(current.verdict.classification, current.verdict.action,
                                                         current.verdict.riskScore) ==>
      r.sanitization == Some(S.Sanitize(text, env.sanitizerPatterns))
    ensures !Retries(env, text, current.verdict) ==>
      && !r.wasSanitized && chains.sessions == old(chains.sessions)
      && memory.threats == old(memory.threats) && memory.embeddings == old(memory.embeddings)
    decreases |text|, 0
  {
    var f := current.verdict;
    if !(env.sanitizationEnabled && S.ShouldSanitize(f.classification, f.action, f.riskScore)) {
      return current.(wasSanitized := false);
    }
    var s := S.SanitizePrompt(text, env.sanitizerPatterns);
    // The analyser is consulted only for a sanitized prompt with content left.
    var outcome: S.Outcome<Analysis> := S.Raised;
    if s.wasSanitized && !Blank(s.sanitized) {
      S.SanitizedShorter(text, env.sanitizerPatterns);
      assert s.sanitized != "";
      var retried := Analyze(env, memory, chains, s.sanitized, sessionId, []);
      outcome := S.Returned(retried);
    }
    var analyze := (_: string) => outcome;
    var actionOf := (a: Analysis) => a.verdict.action;
    var retry := S.RetryOn(s, analyze, actionOf);
    S.RetryOnContract(s, analyze, actionOf);
    if retry.successful {
      r := retry.retryAnalysis.value.(sanitization := Some(retry.sanitization), wasSanitized := true);
    } else {
      r := current.(sanitization := Some(retry.sanitization), wasSanitized := false);
    }
  }
}
