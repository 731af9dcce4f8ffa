/** Explainable decisions: which catalogue rules a message triggered, the risk-factor
    phrases they map to, a technical and a user-safe explanation, the decision record and
    its copy for external logs. */
module Explainability {
  import opened Util

  // ----- the rule catalogue -----------------------------------------------------------

  function Digit(d: nat): char
    requires d < 10
  {
    ('0' as int + d) as char
  }

  /** `RULE_01` … `RULE_15` */
  function RuleId(n: nat): string
    requires 1 <= n <= 15
  {
    "RULE_" + [Digit(n / 10), Digit(n % 10)]
  }

  /** Distinct rule numbers have distinct identifiers. */
  lemma RuleIdInjective(i: nat, j: nat)
    requires 1 <= i <= 15 && 1 <= j <= 15 && RuleId(i) == RuleId(j)
    ensures i == j
  {
    assert RuleId(i)[5] == RuleId(j)[5] && RuleId(i)[6] == RuleId(j)[6];
  }

  /** The catalogue description of a rule, or "Unknown". */
  function RuleDescription(rule: string): string {
    if rule == "RULE_01" then "Instruction override detection"
    else if rule == "RULE_02" then "System prompt extraction attempt"
    else if rule == "RULE_03" then "Privilege escalation pattern"
    else if rule == "RULE_04" then "Database query injection"
    else if rule == "RULE_05" then "Bulk data extraction request"
    else if rule == "RULE_06" then "Identity manipulation attempt"
    else if rule == "RULE_07" then "Security bypass command"
    else if rule == "RULE_08" then "Jailbreak mode activation"
    else if rule == "RULE_09" then "Developer mode exploitation"
    else if rule == "RULE_10" then "Encoded payload detection"
    else if rule == "RULE_11" then "Social engineering tactics"
    else if rule == "RULE_12" then "Multi-step attack chain"
    else if rule == "RULE_13" then "Session escalation pattern"
    else if rule == "RULE_14" then "Threat memory match"
    else if rule == "RULE_15" then "Context-based risk accumulation"
    else "Unknown"
  }

  /** `ATTACK_DESCRIPTIONS.get(attack_type, "Unknown")` */
  function AttackDescription(attackType: string): string {
    if attackType == "JAILBREAK" then "Attempt to bypass AI safety guidelines"
    else if attackType == "SYSTEM_OVERRIDE" then "Attempt to override system instructions"
    else if attackType == "DATA_EXTRACTION" then "Attempt to extract unauthorized data"
    else if attackType == "SOCIAL_ENGINEERING" then "Deceptive tactics to gain unauthorized access"
    else if attackType == "INSTRUCTION_CHAINING" then "Multi-step manipulation sequence"
    else if attackType == "FAST_RULE" then "Known attack pattern detected"
    else if attackType == "NONE" then "No security threat detected"
    else "Unknown"
  }

  // ----- detect_triggered_rules -------------------------------------------------------

  /** The searches behind rules 1 to 10, run on the lower-cased text (for rules 1 and 2
      the conjunction of their two searches). */
  datatype RuleSearches = RuleSearches(
    overrideWords: string -> bool, extraction: string -> bool, privilege: string -> bool,
    database: string -> bool, bulkData: string -> bool, identity: string -> bool,
    bypass: string -> bool, jailbreak: string -> bool, devMode: string -> bool,
    encoded: string -> bool)

  /** Which of rules 1 … 15 fire, in rule order. */
  function Fired(m: RuleSearches, text: string, attackType: string, memoryMatch: bool,
                 sessionRisk: real): (r: seq<bool>)
    ensures |r| == 15
  {
    var t := Lower(text);
    [m.overrideWords(t), m.extraction(t), m.privilege(t), m.database(t), m.bulkData(t),
     m.identity(t), m.bypass(t), m.jailbreak(t), m.devMode(t), m.encoded(t),
     attackType == "SOCIAL_ENGINEERING", attackType == "INSTRUCTION_CHAINING",
     sessionRisk > 0.4, memoryMatch, sessionRisk > 0.6]
  }

  /** The identifiers of the fired rules among rules `from` … 15, in rule order. */
  function Select(fired: seq<bool>, from: nat): (r: seq<string>)
    requires |fired| == 15 && 1 <= from <= 16
    ensures |r| <= 16 - from
    decreases 16 - from
  {
    if from == 16 then []
    else (if fired[from - 1] then [RuleId(from)] else []) + Select(fired, from + 1)
  }

  /** Exactly the fired rules among `from` … 15 are selected, and only rule identifiers. */
  lemma {:induction false} SelectMembers(fired: seq<bool>, from: nat, n: nat)
    requires |fired| == 15 && 1 <= from <= 16 && 1 <= n <= 15
    ensures RuleId(n) in Select(fired, from) <==> from <= n && fired[n - 1]
    decreases 16 - from
  {
    if from < 16 {
      SelectMembers(fired, from + 1, n);
      if RuleId(n) == RuleId(from) { RuleIdInjective(n, from); }
    }
  }

  /** Every selected identifier is a rule of `from` … 15. */
  lemma {:induction false} SelectRange(fired: seq<bool>, from: nat, k: nat)
    requires |fired| == 15 && 1 <= from <= 16 && k < |Select(fired, from)|
    ensures exists n :: from <= n <= 15 && Select(fired, from)[k] == RuleId(n)
    decreases 16 - from
  {
    if from < 16 {
      if !fired[from - 1] || k > 0 {
        var k' := if fired[from - 1] then k - 1 else k;
        SelectRange(fired, from + 1, k');
        var n :| from + 1 <= n <= 15 && Select(fired, from + 1)[k'] == RuleId(n);
      } else {
        assert Select(fired, from)[k] == RuleId(from);
      }
    }
  }

  /** No identifier is selected twice. */
  lemma {:induction false} SelectDistinct(fired: seq<bool>, from: nat)
    requires |fired| == 15 && 1 <= from <= 16
    ensures forall i, j :: 0 <= i < j < |Select(fired, from)| ==> Select(fired, from)[i] != Select(fired, from)[j]
    decreases 16 - from
  {
    if from < 16 {
      SelectDistinct(fired, from + 1);
      if fired[from - 1] {
        var s := Select(fired, from);
        var rest := Select(fired, from + 1);
        assert s == [RuleId(from)] + rest;
        forall j | 0 < j < |s| ensures s[0] != s[j] {
          SelectRange(fired, from + 1, j - 1);
          var n :| from + 1 <= n <= 15 && rest[j - 1] == RuleId(n);
          if s[j] == s[0] { RuleIdInjective(n, from); }
        }
      }
    }
  }

  /** The identifiers of the attack-type and context rules, spelled out. */
  lemma ContextRuleIds()
    ensures RuleId(11) == "RULE_11" && RuleId(12) == "RULE_12" && RuleId(13) == "RULE_13"
    ensures RuleId(14) == "RULE_14" && RuleId(15) == "RULE_15"
  {
  }

  /** `detect_triggered_rules`, in rule order. */
  function TriggeredRules(m: RuleSearches, text: string, attackType: string, memoryMatch: bool,
                          sessionRisk: real): seq<string> {
    Select(Fired(m, text, attackType, memoryMatch, sessionRisk), 1)
  }

  /** No rule is reported twice; the attack-type and context rules fire exactly on their
      conditions, so rule 15 always comes with rule 13. */
  lemma TriggeredRulesContract(m: RuleSearches, text: string, attackType: string, memoryMatch: bool,
                               sessionRisk: real)
    ensures var rules := TriggeredRules(m, text, attackType, memoryMatch, sessionRisk);
      && (forall i, j :: 0 <= i < j < |rules| ==> rules[i] != rules[j])
      && ("RULE_11" in rules <==> attackType == "SOCIAL_ENGINEERING")
      && ("RULE_12" in rules <==> attackType == "INSTRUCTION_CHAINING")
      && ("RULE_13" in rules <==> sessionRisk > 0.4)
      && ("RULE_14" in rules <==> memoryMatch)
      && ("RULE_15" in rules <==> sessionRisk > 0.6)
      && ("RULE_15" in rules ==> "RULE_13" in rules)
      && |rules| <= 15
  {
    var fired := Fired(m, text, attackType, memoryMatch, sessionRisk);
    SelectDistinct(fired, 1);
    ContextRuleIds();
    SelectMembers(fired, 1, 11);
    SelectMembers(fired, 1, 12);
    SelectMembers(fired, 1, 13);
    SelectMembers(fired, 1, 14);
    SelectMembers(fired, 1, 15);
  }

  /** The text searches fire their rule exactly when they match the lower-cased text. */
  lemma TriggeredRulesSearches(m: RuleSearches, text: string, attackType: string, memoryMatch: bool,
                               sessionRisk: real, n: nat)
    requires 1 <= n <= 10
    ensures RuleId(n) in TriggeredRules(m, text, attackType, memoryMatch, sessionRisk)
      <==> Fired(m, text, attackType, memoryMatch, sessionRisk)[n - 1]
  {
    SelectMembers(Fired(m, text, attackType, memoryMatch, sessionRisk), 1, n);
  }

  // ----- extract_risk_factors ---------------------------------------------------------

  /** `rule_factor_map.get(rule)` */
  function FactorKey(rule: string): (r: Option<string>)
    ensures r.Some? ==> r.value != [] && 'a' <= r.value[0] <= 'z'
  {
    if rule == "RULE_01" || rule == "RULE_02" then Some("instruction_override")
    else if rule == "RULE_03" then Some("privilege_escalation")
    else if rule == "RULE_04" || rule == "RULE_05" then Some("data_dump")
    else if rule == "RULE_06" then Some("identity_manipulation")
    else if rule == "RULE_07" then Some("security_bypass")
    else if rule == "RULE_08" || rule == "RULE_09" then Some("jailbreak_keywords")
    else if rule == "RULE_10" then Some("encoded_payload")
    else if rule == "RULE_11" || rule == "RULE_12" then Some("social_engineering")
    else if rule == "RULE_13" then Some("session_escalation")
    else if rule == "RULE_14" then Some("threat_memory")
    else if rule == "RULE_15" then Some("context_risk")
    else None
  }

  /** `RISK_FACTORS[key]` for the keys the rule map produces. */
  function FactorPhrase(key: string): (r: string)
    ensures r != [] && 'A' <= r[0] <= 'Z'
  {
    if key == "instruction_override" then "Contains instruction override phrases"
    else if key == "privilege_escalation" then "Attempts privilege escalation"
    else if key == "data_dump" then "Requests bulk data access"
    else if key == "identity_manipulation" then "Attempts identity manipulation"
    else if key == "security_bypass" then "Attempts to bypass security controls"
    else if key == "jailbreak_keywords" then "Contains jailbreak activation keywords"
    else if key == "encoded_payload" then "Contains encoded or obfuscated content"
    else if key == "social_engineering" then "Uses social engineering tactics"
    else if key == "session_escalation" then "Gradual escalation across conversation"
    else if key == "threat_memory" then "Matches known attack patterns"
    else "Cumulative risk from conversation history"
  }

  /** `f.split(":")[0]` */
  function BeforeColon(f: string): (r: string)
    ensures f != [] && f[0] != ':' ==> r != [] && r[0] == f[0]
  {
    if f == [] || f[0] == ':' then [] else [f[0]] + BeforeColon(f[1..])
  }

  /** `[f.split(":")[0] for f in factors]` */
  function Heads(factors: seq<string>): (r: seq<string>)
    ensures |r| == |factors| && forall i :: 0 <= i < |factors| ==> r[i] == BeforeColon(factors[i])
  {
    seq(|factors|, i requires 0 <= i < |factors| => BeforeColon(factors[i]))
  }

  /** `extract_risk_factors`: for each rule in order, the phrase of its factor, unless the
      factor key is already among the heads of the phrases collected so far. */
  function RiskFactors(rules: seq<string>): seq<string>
    decreases |rules|
  {
    if rules == [] then []
    else
      var factors := RiskFactors(rules[..|rules| - 1]);
      var key := FactorKey(rules[|rules| - 1]);
      if key.Some? && key.value !in Heads(factors) then factors + [FactorPhrase(key.value)] else factors
  }

  /** The phrase of every rule with a factor, in rule order, with nothing removed. */
  function AllPhrases(rules: seq<string>): seq<string>
    decreases |rules|
  {
    if rules == [] then []
    else
      var key := FactorKey(rules[|rules| - 1]);
      AllPhrases(rules[..|rules| - 1]) + (if key.Some? then [FactorPhrase(key.value)] else [])
  }

  /** Every collected factor is a phrase, which starts with a capital letter. */
  predicate Capitalised(factors: seq<string>) {
    forall i :: 0 <= i < |factors| ==> factors[i] != [] && 'A' <= factors[i][0] <= 'Z'
  }

  /** The duplicate guard compares a lower-case key with capitalised phrases, so it never
      removes anything: the factors are all the phrases, one per mapped rule. */
  lemma {:induction false} RiskFactorsAllPhrases(rules: seq<string>)
    ensures RiskFactors(rules) == AllPhrases(rules)
    ensures Capitalised(RiskFactors(rules))
    decreases |rules|
  {
    if rules != [] {
      var init := rules[..|rules| - 1];
      RiskFactorsAllPhrases(init);
      var factors := RiskFactors(init);
      var key := FactorKey(rules[|rules| - 1]);
      if key.Some? {
        var heads := Heads(factors);
        forall i | 0 <= i < |heads| ensures heads[i] != key.value {
          assert heads[i][0] == factors[i][0];
        }
        var p := FactorPhrase(key.value);
        forall i | 0 <= i < |factors + [p]|
          ensures (factors + [p])[i] != [] && 'A' <= (factors + [p])[i][0] <= 'Z'
        {
          if i < |factors| { assert (factors + [p])[i] == factors[i]; }
        }
      }
    }
  }

  /** Rules 1 and 2 map to the same factor, so together they repeat its phrase. */
  lemma RiskFactorsRepeat()
    ensures RiskFactors(["RULE_01", "RULE_02"])
      == ["Contains instruction override phrases", "Contains instruction override phrases"]
  {
    RiskFactorsAllPhrases(["RULE_01", "RULE_02"]);
    assert ["RULE_01", "RULE_02"][..1] == ["RULE_01"];
    assert ["RULE_01"][..0] == [];
  }

  // ----- explanations -----------------------------------------------------------------

  /** `f"{r} ({RULE_CATALOG.get(r, 'Unknown')})"` for each rule. */
  function RuleNames(rules: seq<string>): (r: seq<string>)
    ensures |r| == |rules|
  {
    seq(|rules|, i requires 0 <= i < |rules| => rules[i] + " (" + RuleDescription(rules[i]) + ")")
  }

  /** The parts of the technical explanation; `fmt` is the two-decimal number format. */
  function TechnicalParts(decision: string, attackType: string, rules: seq<string>, confidence: real,
                          riskScore: real, memorySimilarity: real, fmt: real -> string): seq<string> {
    ["Decision: " + decision]
    + (if attackType != "NONE" then ["Threat Type: " + attackType + " - " + AttackDescription(attackType)] else [])
    + (if rules != [] then ["Triggered Rules: " + Join(RuleNames(rules), ", ")] else [])
    + ["Confidence: " + fmt(confidence), "Risk Score: " + fmt(riskScore)]
    + (if memorySimilarity > 0.0 then ["Threat Memory Match: " + fmt(memorySimilarity)] else [])
  }

  /** `generate_technical_explanation` */
  function TechnicalExplanation(decision: string, attackType: string, rules: seq<string>, confidence: real,
                                riskScore: real, memorySimilarity: real, fmt: real -> string): string {
    Join(TechnicalParts(decision, attackType, rules, confidence, riskScore, memorySimilarity, fmt), " | ")
  }

  /** A joined list starts with its first part. */
  lemma JoinStartsWithFirst(parts: seq<string>, sep: string)
    requires parts != []
    ensures |parts[0]| <= |Join(parts, sep)| && Join(parts, sep)[..|parts[0]|] == parts[0]
  {
    if |parts| > 1 {
      assert Join(parts, sep) == parts[0] + (sep + Join(parts[1..], sep));
    }
  }

  /** The explanation starts with the decision; it has a threat part exactly when the attack
      type is not NONE, a rules part exactly when some rule fired, a memory part exactly
      when the similarity is positive, and always the confidence and the risk score. */
  lemma TechnicalExplanationContract(decision: string, attackType: string, rules: seq<string>,
                                     confidence: real, riskScore: real, memorySimilarity: real,
                                     fmt: real -> string)
    ensures var e := TechnicalExplanation(decision, attackType, rules, confidence, riskScore, memorySimilarity, fmt);
      var prefix := "Decision: " + decision;
      |prefix| <= |e| && e[..|prefix|] == prefix
    ensures var parts := TechnicalParts(decision, attackType, rules, confidence, riskScore, memorySimilarity, fmt);
      var threat := if attackType != "NONE" then 1 else 0;
      var listed := if rules != [] then 1 else 0;
      && |parts| == 3 + threat + listed + (if memorySimilarity > 0.0 then 1 else 0)
      && parts[0] == "Decision: " + decision
      && (attackType != "NONE" ==> parts[1] == "Threat Type: " + attackType + " - " + AttackDescription(attackType))
      && (rules != [] ==> parts[1 + threat] == "Triggered Rules: " + Join(RuleNames(rules), ", "))
      && parts[1 + threat + listed] == "Confidence: " + fmt(confidence)
      && parts[2 + threat + listed] == "Risk Score: " + fmt(riskScore)
      && (memorySimilarity > 0.0 ==> parts[3 + threat + listed] == "Threat Memory Match: " + fmt(memorySimilarity))
  {
    JoinStartsWithFirst(TechnicalParts(decision, attackType, rules, confidence, riskScore, memorySimilarity, fmt), " | ");
  }

  /** The user-safe explanation: one of the fixed sentences a user may be shown, or none. */
  datatype UserNotice = PolicyRefusal | DataRefusal | SupportRefusal | GenericRefusal | ReviewNotice
                      | AuthNotice | ScopeNotice | EscalationNotice | NoNotice

  /** The text of each notice; no notice is the empty text. */
  function Sentence(n: UserNotice): string {
    match n
      case PolicyRefusal => "Your request cannot be processed as it appears to contain instructions that conflict with our security policies."
      case DataRefusal => "Your request cannot be processed as it requests access to data that requires proper authentication."
      case SupportRefusal => "Your request cannot be processed. Please contact customer support if you need assistance."
      case GenericRefusal => "Your request cannot be processed due to security policies. Please rephrase your question."
      case ReviewNotice => "Your request has been flagged for review. Please ensure you're following proper authentication procedures."
      case AuthNotice => "This request requires authentication. Please log in to access your account information."
      case ScopeNotice => "This question is outside our banking services scope. How can I help you with banking today?"
      case EscalationNotice => "Multi-turn attack escalation detected. Session blocked."
      case NoNotice => ""
  }

  /** `generate_user_explanation` */
  function UserExplanation(decision: string, attackType: string, domainScope: string): UserNotice {
    if decision == "BLOCK" then
      if attackType == "JAILBREAK" || attackType == "SYSTEM_OVERRIDE" then PolicyRefusal
      else if attackType == "DATA_EXTRACTION" then DataRefusal
      else if attackType == "SOCIAL_ENGINEERING" then SupportRefusal
      else GenericRefusal
    else if decision == "WARN" then ReviewNotice
    else if decision == "ALLOW" then
      if domainScope == "REQUIRES_AUTH" then AuthNotice
      else if domainScope == "OUT_OF_SCOPE" then ScopeNotice
      else NoNotice
    else NoNotice
  }

  /** The user-safe text is always one of the fixed sentences or none: one of the four
      refusals for BLOCK, the review notice for WARN, and for ALLOW the authentication or
      out-of-scope notice or nothing. */
  lemma UserExplanationContract(decision: string, attackType: string, domainScope: string)
    ensures var u := UserExplanation(decision, attackType, domainScope);
      && (decision == "BLOCK" ==> u in [PolicyRefusal, DataRefusal, SupportRefusal, GenericRefusal])
      && (decision == "WARN" ==> u == ReviewNotice)
      && (decision == "ALLOW" ==> u in [AuthNotice, ScopeNotice, NoNotice])
      && (decision == "ALLOW" ==> (u == NoNotice <==> domainScope != "REQUIRES_AUTH" && domainScope != "OUT_OF_SCOPE"))
      && (decision != "BLOCK" && decision != "WARN" && decision != "ALLOW" ==> u == NoNotice)
      && (u == NoNotice <==> (decision != "BLOCK" && decision != "WARN"
                        && (decision != "ALLOW" || (domainScope != "REQUIRES_AUTH" && domainScope != "OUT_OF_SCOPE"))))
  {
  }

  // ----- generate_explainable_decision ------------------------------------------------

  datatype SecurityAnalysis = SecurityAnalysis(
    threatType: string, threatDescription: string, triggeredRules: seq<string>,
    ruleDescriptions: seq<string>, confidenceFactors: seq<string>, confidenceScore: real,
    riskScore: real, threatMemorySimilarity: Option<real>, sessionRiskLevel: Option<real>)

  datatype Explanations = Explanations(technical: string, userSafe: UserNotice, internalReasoning: string)

  datatype Compliance = Compliance(domainScope: string, classification: string,
                                   requiresAuthentication: bool, inScope: bool)

  datatype Explainable = Explainable(decision: string, analysis: SecurityAnalysis,
                                     explanations: Explanations, compliance: Compliance)

  function Descriptions(rules: seq<string>): (r: seq<string>)
    ensures |r| == |rules| && forall i :: 0 <= i < |rules| ==> r[i] == RuleDescription(rules[i])
  {
    seq(|rules|, i requires 0 <= i < |rules| => RuleDescription(rules[i]))
  }

  /** `generate_explainable_decision` (numbers kept unrounded). */
  function ExplainableDecision(m: RuleSearches, classification: string, action: string, attackType: string,
                               domainScope: string, reasoning: string, confidence: real, riskScore: real,
                               text: string, memorySimilarity: real, sessionRisk: real,
                               fmt: real -> string): Explainable {
    var memoryMatch := memorySimilarity >= 0.85;
    var rules := TriggeredRules(m, text, attackType, memoryMatch, sessionRisk);
    Explainable(
      action,
      SecurityAnalysis(attackType, AttackDescription(attackType), rules, Descriptions(rules),
                       RiskFactors(rules), confidence, riskScore,
                       if memorySimilarity > 0.0 then Some(memorySimilarity) else None,
                       if sessionRisk > 0.0 then Some(sessionRisk) else None),
      Explanations(TechnicalExplanation(action, attackType, rules, confidence, riskScore, memorySimilarity, fmt),
                   UserExplanation(action, attackType, domainScope), reasoning),
      Compliance(domainScope, classification, domainScope == "REQUIRES_AUTH",
                 domainScope == "IN_SCOPE" || domainScope == "REQUIRES_AUTH"))
  }

  /** The record's decision is the action; rule 14 fires exactly from a similarity of 0.85;
      similarity and session risk are reported only when positive; the rule descriptions
      follow the rules one for one; in-scope holds exactly for IN_SCOPE and REQUIRES_AUTH
      and authentication is required exactly for REQUIRES_AUTH. */
  lemma ExplainableDecisionContract(m: RuleSearches, classification: string, action: string, attackType: string,
                                    domainScope: string, reasoning: string, confidence: real, riskScore: real,
                                    text: string, memorySimilarity: real, sessionRisk: real,
                                    fmt: real -> string)
    ensures var e := ExplainableDecision(m, classification, action, attackType, domainScope, reasoning,
                                         confidence, riskScore, text, memorySimilarity, sessionRisk, fmt);
      && e.decision == action
      && ("RULE_14" in e.analysis.triggeredRules <==> memorySimilarity >= 0.85)
      && ("RULE_13" in e.analysis.triggeredRules <==> sessionRisk > 0.4)
      && (e.analysis.threatMemorySimilarity.Some? <==> memorySimilarity > 0.0)
      && (e.analysis.sessionRiskLevel.Some? <==> sessionRisk > 0.0)
      && |e.analysis.ruleDescriptions| == |e.analysis.triggeredRules|
      && e.analysis.confidenceFactors == AllPhrases(e.analysis.triggeredRules)
      && (e.compliance.inScope <==> domainScope == "IN_SCOPE" || domainScope == "REQUIRES_AUTH")
      && (e.compliance.requiresAuthentication <==> domainScope == "REQUIRES_AUTH")
      && e.explanations.userSafe == UserExplanation(action, attackType, domainScope)
  {
    var rules := TriggeredRules(m, text, attackType, memorySimilarity >= 0.85, sessionRisk);
    TriggeredRulesContract(m, text, attackType, memorySimilarity >= 0.85, sessionRisk);
    RiskFactorsAllPhrases(rules);
  }

  // ----- sanitize_for_logging ---------------------------------------------------------

  /** A JSON-like value, as the decision dictionaries hold. */
  datatype Json = Null | Bool(b: bool) | Num(n: real) | Str(s: string) | Arr(items: seq<Json>)
                | Obj(fields: map<string, Json>)

  /** `sanitize_for_logging`: a copy whose "explanations" entry keeps only the technical
      and user-safe texts; `None` where Python raises (an "explanations" entry that is not
      a dictionary holding both). */
  function SanitizeForLogging(explanation: map<string, Json>): Option<map<string, Json>> {
    if "explanations" !in explanation then Some(explanation)
    else match explanation["explanations"]
      case Obj(f) =>
        if "technical" in f && "user_safe" in f then
          Some(explanation["explanations" := Obj(map["technical" := f["technical"], "user_safe" := f["user_safe"]])])
        else None
      case _ => None
  }

  /** The copy has the same top-level keys, every entry but "explanations" unchanged, and
      explanations reduced to exactly the technical and user-safe texts, so the internal
      reasoning is gone. */
  lemma SanitizeForLoggingContract(explanation: map<string, Json>)
    ensures var r := SanitizeForLogging(explanation);
      && (r.None? <==> ("explanations" in explanation
                        && !(explanation["explanations"].Obj?
                             && "technical" in explanation["explanations"].fields
                             && "user_safe" in explanation["explanations"].fields)))
      && (r.Some? ==> r.value.Keys == explanation.Keys)
      && (r.Some? ==> forall k :: k in explanation && k != "explanations" ==> r.value[k] == explanation[k])
      && (r.Some? && "explanations" in explanation ==>
            var before := explanation["explanations"].fields;
            && r.value["explanations"].Obj?
            && r.value["explanations"].fields.Keys == {"technical", "user_safe"}
            && "internal_reasoning" !in r.value["explanations"].fields
            && r.value["explanations"].fields["technical"] == before["technical"]
            && r.value["explanations"].fields["user_safe"] == before["user_safe"])
  {
  }

  /** The decision record as the dictionary the engine returns. */
  function ToJson(e: Explainable): map<string, Json> {
    map[
      "decision" := Str(e.decision),
      "security_analysis" := Obj(map[
        "threat_type" := Str(e.analysis.threatType),
        "triggered_rules" := Arr(seq(|e.analysis.triggeredRules|,
                                     i requires 0 <= i < |e.analysis.triggeredRules| => Str(e.analysis.triggeredRules[i])))]),
      "explanations" := Obj(map[
        "technical" := Str(e.explanations.technical),
        "user_safe" := Str(Sentence(e.explanations.userSafe)),
        "internal_reasoning" := Str(e.explanations.internalReasoning)]),
      "policy_compliance" := Obj(map[
        "domain_scope" := Str(e.compliance.domainScope),
        "in_scope" := Bool(e.compliance.inScope)])]
  }

  /** Logging a decision record never fails and drops only its internal reasoning. */
  lemma SanitizeDecisionForLogging(e: Explainable)
    ensures SanitizeForLogging(ToJson(e)) == Some(ToJson(e)["explanations" := Obj(map[
      "technical" := Str(e.explanations.technical), "user_safe" := Str(Sentence(e.explanations.userSafe))])])
  {
  }
}
