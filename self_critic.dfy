/** The self-critic: a second opinion on low-confidence decisions, which may replace the
    action and the risk score and always adjusts the confidence within [0, 1]. */
module SelfCritic {
  import opened Util
  import opened Verdicts

  /** The `agrees_with_decision` entry of the reply: absent, JSON null, or a boolean. */
  datatype Agreement = Absent | Null | Given(value: bool)

  /** `critic_result.get("agrees_with_decision", True)` read as a condition: an absent
      entry agrees, a null one is falsy and so disagrees. */
  predicate Agrees(a: Agreement) {
    match a
    case Absent => true
    case Null => false
    case Given(b) => b
  }

  /** The same entry as the feedback reports it: `None` for a null. */
  function Reported(a: Agreement): (r: Option<bool>)
    ensures r.None? <==> a.Null?
    ensures r.Some? ==> r.value == Agrees(a)
  {
    match a
    case Absent => Some(true)
    case Null => None
    case Given(b) => Some(b)
  }

  /** The critic's JSON reply; apart from `agrees`, `None` is a key that is absent. */
  datatype CriticReply = CriticReply(
    agrees: Agreement,
    reasoning: Option<string>,
    suggestedAction: Option<string>,
    suggestedRisk: Option<real>,
    falsePositive: Option<bool>,
    falseNegative: Option<bool>,
    confidenceAdjustment: Option<real>)

  /** What `_parse_critic_response` falls back on when the reply holds no JSON object. */
  const UnparsableReply := CriticReply(Given(true), Some("Parse error - keeping original decision"),
                                       None, None, Some(false), Some(false), Some(0.0))

  /** `_parse_critic_response`: the parsed object, or the agreeing default. */
  function ParseCriticReply(parsed: Option<CriticReply>): CriticReply {
    if parsed.Some? then parsed.value else UnparsableReply
  }

  /** The critic model's call: an exception, or the reply text parsed (or not). */
  datatype CriticCall = CallFailed(error: string) | Answered(parsed: Option<CriticReply>)

  datatype Delta = Delta(actionChanged: bool, riskScoreDelta: real, confidenceDelta: real)

  const NoDelta := Delta(false, 0.0, 0.0)

  datatype Feedback =
    | NotInvoked
    | CallError(error: string)
    | Assessment(agrees: Option<bool>, reasoning: string, falsePositive: bool, falseNegative: bool,
                 suggestedAction: Option<string>, suggestedRisk: Option<real>)

  /** The result of `run_critic`. `criticReasoning` is present exactly when the reply was
      applied, which is when the final decision carries `critic_validated`. */
  datatype CriticRun = CriticRun(
    finalDecision: Verdict,
    criticReasoning: Option<string>,
    feedback: Feedback,
    delta: Delta,
    invoked: bool)

  /** Python truthiness of the suggested action: present and not empty. */
  predicate Suggests(reply: CriticReply) {
    reply.suggestedAction.Some? && reply.suggestedAction.value != ""
  }

  /** Applies a reply to the decision it judged: the action changes exactly when the
      critic disagrees and suggests a different, non-empty action; the risk is replaced
      exactly when it disagrees and suggests one; the confidence is the adjusted one
      clamped to [0, 1]; the deltas are the differences; every other field is kept. */
  function ApplyReply(initial: Verdict, reply: CriticReply): (r: CriticRun)
    ensures var disagrees := !Agrees(reply.agrees);
      && r.invoked && r.criticReasoning == Some(GetOr(reply.reasoning, ""))
      && r.feedback.Assessment? && r.feedback.agrees == Reported(reply.agrees)
      && (r.delta.actionChanged <==> disagrees && Suggests(reply) && reply.suggestedAction.value != initial.action)
      && (r.delta.actionChanged <==> r.finalDecision.action != initial.action)
      && (r.delta.actionChanged ==> r.finalDecision.action == reply.suggestedAction.value)
      && r.finalDecision.riskScore == (if disagrees && reply.suggestedRisk.Some? then reply.suggestedRisk.value else initial.riskScore)
      && 0.0 <= r.finalDecision.confidence <= 1.0
      && r.finalDecision.confidence == Clamp(initial.confidence + GetOr(reply.confidenceAdjustment, 0.0), 0.0, 1.0)
      && r.delta.riskScoreDelta == r.finalDecision.riskScore - initial.riskScore
      && r.delta.confidenceDelta == r.finalDecision.confidence - initial.confidence
      && r.finalDecision == initial.(action := r.finalDecision.action, riskScore := r.finalDecision.riskScore,
                                     confidence := r.finalDecision.confidence)
  {
    var agrees := Agrees(reply.agrees);
    var replace := !agrees && Suggests(reply) && reply.suggestedAction.value != initial.action;
    var action := if replace then reply.suggestedAction.value else initial.action;
    var risk := if !agrees && reply.suggestedRisk.Some? then reply.suggestedRisk.value else initial.riskScore;
    var confidence := Clamp(initial.confidence + GetOr(reply.confidenceAdjustment, 0.0), 0.0, 1.0);
    CriticRun(
      initial.(action := action, riskScore := risk, confidence := confidence),
      Some(GetOr(reply.reasoning, "")),
      Assessment(Reported(reply.agrees), GetOr(reply.reasoning, ""), GetOr(reply.falsePositive, false),
                 GetOr(reply.falseNegative, false), reply.suggestedAction, reply.suggestedRisk),
      Delta(replace, risk - initial.riskScore, confidence - initial.confidence),
      true)
  }

  /** `run_critic`; the critic model is consulted only below the confidence threshold. At
      or above it nothing is asked and nothing changes; a failed call keeps the decision
      with zero deltas; an answer is applied as `ApplyReply` says. */
  function RunCritic(text: string, initial: Verdict, threshold: real,
                     critic: (string, Verdict) -> CriticCall): (r: CriticRun)
    ensures r.invoked <==> initial.confidence < threshold
    ensures !r.invoked ==> r.finalDecision == initial && r.feedback == NotInvoked && r.delta == NoDelta
    ensures r.invoked && critic(text, initial).CallFailed? ==>
      r.finalDecision == initial && r.delta == NoDelta && r.criticReasoning.None?
        && r.feedback == CallError(critic(text, initial).error)
    ensures r.invoked && critic(text, initial).Answered? ==>
      r == ApplyReply(initial, ParseCriticReply(critic(text, initial).parsed))
    ensures r.delta.actionChanged <==> r.finalDecision.action != initial.action
    ensures r.delta.riskScoreDelta == r.finalDecision.riskScore - initial.riskScore
    ensures r.delta.confidenceDelta == r.finalDecision.confidence - initial.confidence
  {
    if initial.confidence >= threshold then CriticRun(initial, None, NotInvoked, NoDelta, false)
    else match critic(text, initial)
      case CallFailed(e) => CriticRun(initial, None, CallError(e), NoDelta, true)
      case Answered(parsed) => ApplyReply(initial, ParseCriticReply(parsed))
  }

  /** A critic that agrees keeps the action and the risk and moves only the confidence. */
  lemma AgreeingCriticKeepsDecision(initial: Verdict, reply: CriticReply)
    requires Agrees(reply.agrees)
    ensures var r := ApplyReply(initial, reply);
      && r.finalDecision.action == initial.action && r.finalDecision.riskScore == initial.riskScore
      && !r.delta.actionChanged && r.delta.riskScoreDelta == 0.0
      && r.finalDecision == initial.(confidence := r.finalDecision.confidence)
  {
  }

  /** A null agreement with a suggested action counts as disagreement: the suggestion
      replaces a different action. */
  lemma NullAgreementDisagrees(initial: Verdict, reply: CriticReply)
    requires reply.agrees == Null && Suggests(reply) && reply.suggestedAction.value != initial.action
    ensures var r := ApplyReply(initial, reply);
      && r.finalDecision.action == reply.suggestedAction.value && r.delta.actionChanged
      && r.feedback.Assessment? && r.feedback.agrees.None?
  {
  }

  /** An unparsable reply agrees: with a confidence already in [0, 1] the decision comes
      back unchanged, marked validated, with zero deltas. */
  lemma UnparsableReplyKeepsDecision(initial: Verdict)
    requires 0.0 <= initial.confidence <= 1.0
    ensures var r := ApplyReply(initial, ParseCriticReply(None));
      && r.finalDecision == initial && r.delta == NoDelta
      && r.criticReasoning == Some("Parse error - keeping original decision")
  {
  }
}
