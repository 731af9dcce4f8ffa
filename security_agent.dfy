/** The three-node agent's analyse and respond nodes: the security verdict routes a
    message to a fixed block reply, a fixed scope reply or the banking assistant, and
    only an answered banking exchange is added to the bounded history. */
module SecurityAgent {
  import opened Util

  /** The verdict fields the respond node reads; `None` is a missing key. */
  datatype SecurityResult = SecurityResult(
    classification: Option<string>,
    action: Option<string>,
    domainScope: Option<string>,
    attackType: Option<string>,
    reasoning: Option<string>,
    riskScore: Option<real>)

  /** A history entry. */
  datatype Entry = Entry(role: string, content: string, riskScore: real)

  /** The analyser's call: an exception, or its verdict. */
  datatype AnalyzeCall = AnalyzeFailed | Analyzed(result: SecurityResult)

  /** The banking assistant's call: an exception, or its answer. */
  datatype AgentCall = AgentFailed | Answered(answer: string)

  const MaxHistory := 20

  const BlockResponses := map[
    "JAILBREAK" := "Request blocked: jailbreak attempt detected.",
    "SYSTEM_OVERRIDE" := "Request blocked: system override attempt detected.",
    "DATA_EXTRACTION" := "Request blocked: data extraction attempt detected. Incident logged.",
    "SOCIAL_ENGINEERING" := "Request blocked: social engineering attempt detected.",
    "INSTRUCTION_CHAINING" := "Request blocked: instruction chaining detected.",
    "FAST_RULE" := "Request blocked: known attack pattern detected.",
    "NONE" := "Request blocked by security filter."]

  const ScopeResponses := map[
    "REQUIRES_AUTH" := "This requires account authentication. Please log in to your banking app or call 1800-XXX-XXXX.",
    "OUT_OF_SCOPE" := "I'm a banking assistant and can only help with banking and finance queries. How can I help you with banking today?"]

  const Helpline := "Unable to process request. Call 1800-XXX-XXXX for help."

  /** The verdict the analyse node falls back on when the analyser raises. */
  const ErrorFallback := SecurityResult(Some("SAFE"), Some("ALLOW"), Some("IN_SCOPE"), Some("NONE"),
                                        Some("error fallback"), Some(0.0))

  /** Where the respond node sends a message. */
  datatype Route = Blocked(reply: string) | Scoped(reply: string) | ToAgent

  /** `BLOCK_RESPONSES.get(attack, BLOCK_RESPONSES["NONE"])` */
  function BlockReply(attackType: Option<string>): (r: string)
    ensures r in BlockResponses.Values
    ensures attackType.Some? && attackType.value in BlockResponses ==> r == BlockResponses[attackType.value]
    ensures attackType.None? || attackType.value !in BlockResponses ==> r == BlockResponses["NONE"]
  {
    if attackType.Some? && attackType.value in BlockResponses then BlockResponses[attackType.value]
    else BlockResponses["NONE"]
  }

  /** The routing of `node_respond`: a block or a MALICIOUS classification gets the block
      reply for its attack type; otherwise a scope that needs authentication or is out
      of scope gets its scope reply; everything else goes to the banking assistant. */
  function RouteOf(result: SecurityResult): (r: Route)
    ensures var blocks := result.action == Some("BLOCK") || result.classification == Some("MALICIOUS");
      && (r.Blocked? <==> blocks)
      && (r.Blocked? ==> r.reply == BlockReply(result.attackType))
      && (r.Scoped? <==> !blocks && result.domainScope.Some? && result.domainScope.value in ScopeResponses)
      && (r.Scoped? ==> r.reply == ScopeResponses[result.domainScope.value])
      && (r.ToAgent? <==> !blocks && (result.domainScope.None? || result.domainScope.value !in ScopeResponses))
  {
    if result.action == Some("BLOCK") || result.classification == Some("MALICIOUS") then
      Blocked(BlockReply(result.attackType))
    else if result.domainScope.Some? && result.domainScope.value in ScopeResponses then
      Scoped(ScopeResponses[result.domainScope.value])
    else ToAgent
  }

  /** The history after an answered exchange: the user turn with the verdict's risk and
      the assistant turn with none, keeping only the last 20 entries. */
  function Exchanged(history: seq<Entry>, input: string, risk: real, answer: string): (r: seq<Entry>)
    ensures |r| <= MaxHistory
    ensures |r| == if |history| + 2 < MaxHistory then |history| + 2 else MaxHistory
    ensures r[|r| - 2..] == [Entry("user", input, risk), Entry("assistant", answer, 0.0)]
    ensures r[..|r| - 2] == history[|history| - (|r| - 2)..]
  {
    var h := history + [Entry("user", input, risk), Entry("assistant", answer, 0.0)];
    Last(h, MaxHistory)
  }

  /** The state the graph threads through its nodes. */
  class AgentState {
    var userInput: string
    var sessionId: string
    var history: seq<Entry>
    var securityResult: SecurityResult
    var finalResponse: string

    constructor (userInput: string, sessionId: string, history: seq<Entry>)
      ensures this.userInput == userInput && this.sessionId == sessionId && this.history == history
      ensures securityResult == ErrorFallback && finalResponse == ""
    {
      this.userInput := userInput;
      this.sessionId := sessionId;
      this.history := history;
      securityResult := ErrorFallback;
      finalResponse := "";
    }

    /** `node_analyze`: the analyser's verdict, or the SAFE / ALLOW / IN_SCOPE fallback. */
    method NodeAnalyze(analyze: (string, string, seq<Entry>) -> AnalyzeCall)
      modifies this
      ensures analyze(userInput, sessionId, history).Analyzed? ==>
        securityResult == analyze(userInput, sessionId, history).result
      ensures analyze(userInput, sessionId, history).AnalyzeFailed? ==> securityResult == ErrorFallback
      ensures userInput == old(userInput) && sessionId == old(sessionId) && history == old(history)
      ensures finalResponse == old(finalResponse)
    {
      var call := analyze(userInput, sessionId, history);
      if call.Analyzed? {
        securityResult := call.result;
      } else {
        securityResult := ErrorFallback;
      }
    }

    /** `node_respond`. Blocked and scoped messages get their fixed reply and leave the
        history alone; the banking path answers and records the exchange; a failing
        banking assistant gets the helpline reply. */
    method NodeRespond(agent: (string, string) -> AgentCall)
      modifies this
      ensures var route := RouteOf(old(securityResult));
        && (!route.ToAgent? ==> finalResponse == route.reply && history == old(history))
        && (route.ToAgent? && agent(userInput, sessionId).AgentFailed? ==>
              finalResponse == Helpline && history == old(history))
        && (route.ToAgent? && agent(userInput, sessionId).Answered? ==>
              finalResponse == agent(userInput, sessionId).answer
              && history == Exchanged(old(history), userInput, GetOr(old(securityResult).riskScore, 0.0),
                                      finalResponse))
      ensures userInput == old(userInput) && sessionId == old(sessionId)
      ensures securityResult == old(securityResult)
    {
      var route := RouteOf(securityResult);
      if !route.ToAgent? {
        finalResponse := route.reply;
        return;
      }
      var call := agent(userInput, sessionId);
      if call.AgentFailed? {
        finalResponse := Helpline;
        return;
      }
      finalResponse := call.answer;
      var h := history + [Entry("user", userInput, GetOr(securityResult.riskScore, 0.0)),
                          Entry("assistant", finalResponse, 0.0)];
      history := Last(h, MaxHistory);
    }
  }

  /** A verdict that blocks never reaches the banking assistant, whatever its scope. */
  lemma BlockNeverReachesAgent(result: SecurityResult)
    requires result.action == Some("BLOCK") || result.classification == Some("MALICIOUS")
    ensures RouteOf(result).Blocked?
    ensures result.attackType == Some("DATA_EXTRACTION") ==>
      RouteOf(result).reply == "Request blocked: data extraction attempt detected. Incident logged."
  {
  }

  /** The analyser's failure lets the message through to the banking assistant. */
  lemma FallbackReachesAgent()
    ensures RouteOf(ErrorFallback).ToAgent?
  {
  }
}
