/** The classification record both security analysers produce, the safe record their
    failures fall back on, the fast-rule scan they share and the multi-turn escalation
    re-score they both apply. */
module Verdicts {
  import opened Util

  /** The core fields of a classification dictionary. */
  datatype Verdict = Verdict(
    classification: string,
    action: string,
    attackType: string,
    domainScope: string,
    reasoning: string,
    explanation: string,
    confidence: real,
    riskScore: real)

  /** The record a classifier failure or an unparsable reply falls back on. */
  function SafeFallback(reasoning: string): (v: Verdict)
    ensures v.classification == "SAFE" && v.action == "ALLOW" && v.attackType == "NONE"
    ensures v.domainScope == "IN_SCOPE" && v.confidence == 0.5 && v.riskScore == 0.0
    ensures v.reasoning == reasoning && v.explanation == ""
  {
    Verdict("SAFE", "ALLOW", "NONE", "IN_SCOPE", reasoning, "", 0.5, 0.0)
  }

  /** The block both fast-rule checks return for a matching pattern. */
  function FastVerdict(pattern: string): (v: Verdict)
    ensures v.classification == "MALICIOUS" && v.action == "BLOCK" && v.attackType == "FAST_RULE"
    ensures v.domainScope == "MALICIOUS" && v.confidence == 1.0 && v.riskScore == 1.0
  {
    Verdict("MALICIOUS", "BLOCK", "FAST_RULE", "MALICIOUS", "Matched attack pattern: " + pattern,
            "Request blocked: contains known attack pattern.", 1.0, 1.0)
  }

  /** A fast rule: its search and its source text, reported as the matched pattern. */
  type FastRule = (string -> bool, string)

  /** The text the fast rules search: lower-cased, then stripped. */
  function FastRuleInput(text: string): string {
    Strip(Lower(text))
  }

  /** The fast-rule loop: the index of the first rule whose search matches. */
  method FindFastRule(rules: seq<FastRule>, text: string) returns (r: Option<nat>)
    ensures r == FirstMatch(rules, FastRuleInput(text))
  {
    var t := FastRuleInput(text);
    var i := 0;
    while i < |rules|
      invariant 0 <= i <= |rules|
      invariant forall j :: 0 <= j < i ==> !rules[j].0(t)
    {
      if rules[i].0(t) {
        return Some(i);
      }
      i := i + 1;
    }
    return None;
  }

  /** Whether the re-score turns the verdict into a block. */
  predicate ForcedBlock(v: Verdict, escalationDetected: bool, escalationScore: real) {
    escalationDetected && Min(1.0, v.riskScore + escalationScore * 0.5) > 0.8 && v.action != "BLOCK"
  }

  /** The escalation re-score: half the escalation score is added to the risk, capped at
      1; a boosted risk above 0.8 turns a verdict that is not already a block into a
      MALICIOUS block. It never lowers a risk of at most 1 (the score is never negative),
      never turns a block back, and touches nothing but risk, action and classification. */
  function Escalated(v: Verdict, escalationDetected: bool, escalationScore: real): (r: Verdict)
    ensures !escalationDetected ==> r == v
    ensures escalationDetected ==> r.riskScore == Min(1.0, v.riskScore + escalationScore * 0.5)
    ensures escalationScore >= 0.0 && v.riskScore <= 1.0 ==> v.riskScore <= r.riskScore <= 1.0
    ensures v.action == "BLOCK" ==> r.action == "BLOCK"
    ensures r.action == "BLOCK" <==> v.action == "BLOCK" || ForcedBlock(v, escalationDetected, escalationScore)
    ensures ForcedBlock(v, escalationDetected, escalationScore) ==> r.classification == "MALICIOUS"
    ensures !ForcedBlock(v, escalationDetected, escalationScore) ==> r.classification == v.classification && r.action == v.action
    ensures r.attackType == v.attackType && r.domainScope == v.domainScope && r.confidence == v.confidence
    ensures r.reasoning == v.reasoning && r.explanation == v.explanation
  {
    if !escalationDetected then v
    else
      var boosted := Min(1.0, v.riskScore + escalationScore * 0.5);
      if boosted > 0.8 && v.action != "BLOCK" then
        v.(riskScore := boosted, action := "BLOCK", classification := "MALICIOUS")
      else v.(riskScore := boosted)
  }
}
