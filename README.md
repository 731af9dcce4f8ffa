# Prompt-Guard gateway core, modelled in Dafny

Prompt-Guard is a security gateway that sits in front of a banking chat assistant. Every
user message passes through layered checks before anything answers it:

- **Fast rules** (`Verdicts`, `GroqAgent.FastRuleCheck`, `Governance.FastRuleCheck`): the
  lower-cased, stripped text is searched against a list of attack patterns. The first
  match blocks the message as a `FAST_RULE` attack.
- **Banking prefilter** (`BankingRules`): deterministic BLOCK / ALLOW / PASS_TO_MODEL rules
  for bulk data extraction, sensitive tokens next to exfiltration, bypass or transaction
  wording, and whitelisted banking intents.
- **Classifier agents**. `GroqAgent` is the layered analyser: fast rules, then the
  classifier model, then a threat-memory boost and record, the self-critic, sanitise and
  retry, the multi-turn attack chain, and an explainable decision. `Governance` is the
  single-call self-governance engine. Both fall back to a SAFE / ALLOW verdict when the
  model fails.
- **Threat memory** (`ThreatMemory`): a store of past attacks with embedding rows. It is
  searched by decayed cosine similarity and bumped or appended on every recorded attack.
  When over capacity it is pruned to the most recently seen records.
- **Self-critic** (`SelfCritic`): a second model that re-judges low-confidence decisions.
- **Prompt sanitizer** (`Sanitizer`): deletes the spans matched by the pattern catalogue,
  records one action per deletion and tidies the remainder.
- **Attack-chain detector** (`AttackChain`): per-session turn history with four pattern
  detectors (intent evolution, privilege escalation, semantic drift, risk escalation),
  an escalation score and a turn graph.
- **Context engine** (`ContextEngine`): per-session stored turns, a recency-weighted
  cumulative risk score and slow-burn heuristics.
- **Explainability** (`Explainability`): triggered rules, risk factors, technical and
  user-safe explanations, and the logging copy that drops internal reasoning.
- **Serving pieces**: the three-node agent's analyse and respond nodes (`SecurityAgent`),
  the template-or-model banking responder (`BankingResponder`), the response cache
  (`Cache`), and the statistics collector's in-memory computations (`Stats`).

Regular expressions, the language models, embeddings, hashing and clocks are parameters
of the model: a search is a `string -> bool`, a model call is a datatype that holds
either an exception or a parsed reply, and the current time is an argument. Python's
string built-ins that the logic depends on (`strip`, `lower`, `upper`, slicing, `join`)
are defined in `Util`. The user-safe explanation is one of a fixed set of sentences, so a
decision record holds it as a `UserNotice` value whose `Sentence` is the literal text.

## Model

| member | source | states |
|---|---|---|
| Util.StripEnds | prompt_guard_gateway/banking_rules.py:103 | the stripped text neither starts nor ends with whitespace |
| Util.LStripShape | prompt_guard_gateway/banking_rules.py:103 | `lstrip` removes exactly the leading whitespace run |
| Util.RStripShape | prompt_guard_gateway/banking_rules.py:103 | `rstrip` removes exactly the trailing whitespace run |
| Util.StripIdempotent | prompt_guard_gateway/banking_rules.py:103 | stripping twice is stripping once |
| Util.BlankIffAllSpace | prompt_guard_gateway/banking_rules.py:103-105 | a text strips to empty exactly when all its characters are whitespace |
| Util.Last | prompt_guard_gateway/security_agent.py:107 | `xs[-n:]` keeps the last n elements, or all of them when there are fewer |
| Util.FirstMatch | prompt_guard_gateway/groq_security_agent.py:82-83 | the index of the first rule whose search matches; no earlier rule matches, and none means no rule matches |
| Verdicts.SafeFallback | prompt_guard_gateway/groq_security_agent.py:183-192 | the failure record is SAFE / ALLOW / NONE / IN_SCOPE at confidence 0.5 and risk 0 |
| Verdicts.FastVerdict | prompt_guard_gateway/groq_security_agent.py:84-93 | a fast-rule hit is a MALICIOUS FAST_RULE block at full confidence and risk |
| Verdicts.FindFastRule | prompt_guard_gateway/groq_security_agent.py:81-83 | the scan returns the first rule that matches the lower-cased, stripped text |
| Verdicts.Escalated | prompt_guard_gateway/groq_security_agent.py:359-372 | the risk rises by half the escalation score, capped at 1; a boosted risk above 0.8 blocks (iff), a block is never undone, and no other field changes |
| AttackChain.PySuffix | prompt_guard_gateway/attack_chain_detector.py:63-65 | `s[-m:]` for any integer m is a suffix of the stated length |
| AttackChain.AppendedKeepsRecent | prompt_guard_gateway/attack_chain_detector.py:45-65 | `add_turn` appends the new node (numbered one past the stored count, text cut to 200) and keeps the newest `max_history` nodes |
| AttackChain.AppendedBound | prompt_guard_gateway/attack_chain_detector.py:61-65 | a session never grows past `max_history` |
| AttackChain.PlateauStep | prompt_guard_gateway/attack_chain_detector.py:50-65 | one turn preserves the turn-number plateau invariant |
| AttackChain.FeedNumbers | prompt_guard_gateway/attack_chain_detector.py:50-65 | after n turns under cap m, turn numbers climb and then stay at m + 1 |
| AttackChain.TenTurnsCapFive | tests/test_attack_chain.py:175-186 | the max-history test: any ten turns under cap five keep five, the first numbered 6 |
| AttackChain.DetectIntentEvolution | prompt_guard_gateway/attack_chain_detector.py:116-144 | fires exactly when at least three turns are stored and the last five start SAFE or REQUIRES_AUTH, end MALICIOUS and never drop by more than 0.2 between neighbours; a detection is HIGH and names the last five turns |
| AttackChain.HitPositions | prompt_guard_gateway/attack_chain_detector.py:153-158 | the positions of the last turns whose lower-cased text contains a privilege keyword: increasing, each one a mention, and no mention missed |
| AttackChain.PrivilegeHits | prompt_guard_gateway/attack_chain_detector.py:153-158 | the reported turn numbers are exactly those of the mentioning turns, in order: one per hit position |
| AttackChain.DetectPrivilegeEscalation | prompt_guard_gateway/attack_chain_detector.py:146-170 | fires exactly when at least two of the last five turns mention a privilege keyword; a detection is CRITICAL and names exactly those turns |
| AttackChain.DetectSemanticDrift | prompt_guard_gateway/attack_chain_detector.py:172-197 | fires exactly when at least four turns are stored and the last six have three or more distinct intents with the last risk above the first plus 0.3; a detection is MEDIUM and names the last six turns |
| AttackChain.Increases | prompt_guard_gateway/attack_chain_detector.py:205-208 | the count of rises is below the number of risks |
| AttackChain.DetectRiskEscalation | prompt_guard_gateway/attack_chain_detector.py:199-222 | fires exactly when at least three turns are stored and, over the last five, the rises number at least the count minus two and the risk grew by more than 0.4; a detection is HIGH and names the last five turns |
| AttackChain.EscalationScore | prompt_guard_gateway/attack_chain_detector.py:224-245 | the score is in [0, 1] and is 0 exactly when no pattern fired |
| AttackChain.Damping | prompt_guard_gateway/attack_chain_detector.py:229-230 | the count factor 1 - 1/(1+k^2) is 1/2 for one pattern, at least 0.8 for two or more, and below 1 |
| AttackChain.MeanWeight | prompt_guard_gateway/attack_chain_detector.py:232-237 | the mean severity weight is at least LOW's weight 1 |
| AttackChain.TurnFactor | prompt_guard_gateway/attack_chain_detector.py:239-240 | the turn factor lies in [0, 1] and is at least n/10 unless it is capped at 1 |
| AttackChain.CappedScore | prompt_guard_gateway/attack_chain_detector.py:242-245 | the capped score is positive, at most 1, and exactly 1 when and only when the uncapped product reaches 1 |
| AttackChain.CappedSaturates | prompt_guard_gateway/attack_chain_detector.py:242-245 | lower bounds on the three factors whose product reaches 1 make the score exactly 1 |
| AttackChain.NodeText | prompt_guard_gateway/attack_chain_detector.py:258 | a node's text is at most 53 characters and a short text is kept whole |
| AttackChain.Nodes | prompt_guard_gateway/attack_chain_detector.py:255-265 | one node per turn, in turn order |
| AttackChain.Edges | prompt_guard_gateway/attack_chain_detector.py:266-273 | one edge per consecutive pair of turns |
| AttackChain.GraphShape | prompt_guard_gateway/attack_chain_detector.py:247-275 | node ids are the turn numbers; an edge is marked as escalation exactly when the risk rises by more than 0.2 |
| AttackChain.ShortChainResult | prompt_guard_gateway/attack_chain_detector.py:70-80 | under two turns: nothing detected, score 0, no patterns |
| AttackChain.FiredInOrder | prompt_guard_gateway/attack_chain_detector.py:83-104 | the fired patterns are listed in detector order and the list is empty exactly when none fired |
| AttackChain.AnalyzeChainPatterns | prompt_guard_gateway/attack_chain_detector.py:83-114 | escalation is detected exactly when some detector fired; patterns in detector order; the turn count is reported |
| AttackChain.ScoreSaturates | prompt_guard_gateway/attack_chain_detector.py:224-245 | with HIGH/CRITICAL weights (or MEDIUM with four turns), any non-empty pattern list scores exactly 1 |
| AttackChain.FourSaturating | prompt_guard_gateway/attack_chain_detector.py:224-245 | the four detectors' severities (MEDIUM only from four turns) make any list they fire score 1 |
| AttackChain.ScoreIsZeroOrOne | prompt_guard_gateway/attack_chain_detector.py:224-245 | every analysis scores exactly 0 (nothing detected) or exactly 1 |
| AttackChain.MaxRisk | prompt_guard_gateway/attack_chain_detector.py:290 | the maximum risk bounds every turn's risk and is one of them |
| AttackChain.AttackChainDetector.constructor | prompt_guard_gateway/attack_chain_detector.py:26-28 | a new detector has no sessions |
| AttackChain.AttackChainDetector.AddTurn | prompt_guard_gateway/attack_chain_detector.py:30-68 | only this session changes, by the bounded append, and the result is the analysis of its new history |
| AttackChain.AttackChainDetector.GetSessionSummary | prompt_guard_gateway/attack_chain_detector.py:277-295 | None exactly for an unknown session; otherwise counts, first and last timestamps, maximum and mean risk, and the chain analysis |
| AttackChain.AttackChainDetector.ClearSession | prompt_guard_gateway/attack_chain_detector.py:297-300 | only this session is removed |
| ThreatMemory.GenerateId | prompt_guard_gateway/threat_memory.py:96-98 | the id is the first 16 characters of the hex digest |
| ThreatMemory.AgeDays | prompt_guard_gateway/threat_memory.py:107-108 | the age is the whole number of days elapsed, rounded down |
| ThreatMemory.DecayAt | prompt_guard_gateway/threat_memory.py:104-116 | weight 1 at age 0, in (0.1, 1] before `decay_days`, 0.1 from then on |
| ThreatMemory.Decay | prompt_guard_gateway/threat_memory.py:104-116 | an unparsable timestamp weighs 1; a past timestamp weighs between 0.1 and 1 |
| ThreatMemory.DecayDecreasing | prompt_guard_gateway/threat_memory.py:104-116 | older is never heavier, and strictly lighter exactly before `decay_days` |
| ThreatMemory.WorstPos | prompt_guard_gateway/threat_memory.py:229-234 | the position the recency sort puts last: every other candidate is above it |
| ThreatMemory.KeepCount | prompt_guard_gateway/threat_memory.py:236 | `len(xs[:m])` for a list of length n |
| ThreatMemory.Keep | prompt_guard_gateway/threat_memory.py:229-237 | keeps min(k, n) of the candidates, in increasing index order |
| ThreatMemory.KeepTop | prompt_guard_gateway/threat_memory.py:229-237 | every kept candidate sorts before every dropped one |
| ThreatMemory.PruneIndices | prompt_guard_gateway/threat_memory.py:229-237 | the kept indices: `len(threats[:max_threats])` of them, increasing and in range |
| ThreatMemory.PruneKeepsNewest | prompt_guard_gateway/threat_memory.py:229-240 | every kept record is at least as recent as every dropped one (ties: the earlier record is kept) |
| ThreatMemory.Select | prompt_guard_gateway/threat_memory.py:239-240 | `xs[keep_indices]` picks exactly the indexed elements |
| ThreatMemory.SelectKeepsUnique | prompt_guard_gateway/threat_memory.py:237-239 | pruning keeps record ids distinct |
| ThreatMemory.TypeTotal | prompt_guard_gateway/threat_memory.py:257-260 | a per-type total never exceeds the total of all attacks |
| ThreatMemory.TypeTotalPositive | prompt_guard_gateway/threat_memory.py:257-265 | a type's total is positive exactly when some record has that type |
| ThreatMemory.OldestFirstSeen | prompt_guard_gateway/threat_memory.py:266 | the oldest first sighting is the minimum and is one of the records' |
| ThreatMemory.NewestLastSeen | prompt_guard_gateway/threat_memory.py:267 | the newest last sighting is the maximum and is one of the records' |
| ThreatMemory.ThreatMemory.constructor | prompt_guard_gateway/threat_memory.py:47-64 | an empty store with the given settings |
| ThreatMemory.ThreatMemory.Search | prompt_guard_gateway/threat_memory.py:118-158 | no match without a model, records or embedding; otherwise the first record with the greatest positive weighted score, reported exactly when that score reaches the threshold |
| ThreatMemory.ThreatMemory.BestRecord | prompt_guard_gateway/threat_memory.py:131-141 | the first record with the greatest positive score, or none when no score is positive |
| ThreatMemory.ThreatMemory.FindId | prompt_guard_gateway/threat_memory.py:178-182 | the first record with this id, or none when no record has it |
| ThreatMemory.ThreatMemory.PruneOldThreats | prompt_guard_gateway/threat_memory.py:226-240 | records and embedding rows are re-selected by the same kept indices |
| ThreatMemory.ThreatMemory.RecordAttack | prompt_guard_gateway/threat_memory.py:160-224 | "no_model" without a model; a repeat bumps exactly the matching record; a first sighting appends the record and its row, then prunes both by the same kept indices; an embedding failure answers "error" and changes nothing; ids stay unique |
| ThreatMemory.ThreatMemory.Bump | prompt_guard_gateway/threat_memory.py:184-188 | the record with this id gains a sighting and a session; nothing else changes |
| ThreatMemory.ThreatMemory.Append | prompt_guard_gateway/threat_memory.py:190-216 | the record and its row are appended, then both lists are pruned together over capacity |
| ThreatMemory.ThreatMemory.GetStats | prompt_guard_gateway/threat_memory.py:246-268 | record and attack totals, a positive per-type total for exactly the present types, and the oldest and newest sightings |
| ThreatMemory.TypeCounts | prompt_guard_gateway/threat_memory.py:257-260 | the per-type loop yields exactly the present types with their totals |
| ContextEngine.ScoreSlowBurn | prompt_guard_gateway/context_engine.py:74-105 | the slow-burn score lies in [0, 0.9] and is 0 for a blank message |
| ContextEngine.SlowBurnFirstMatch | prompt_guard_gateway/context_engine.py:74-105 | the score is that of the first matching check in priority order, 0 when none matches |
| ContextEngine.Newest | prompt_guard_gateway/context_engine.py:155-167 | the delete keeps the newest n rows (none for n <= 0) |
| ContextEngine.LastRows | prompt_guard_gateway/context_engine.py:172-189 | the newest `limit` rows oldest first; a negative limit returns all |
| ContextEngine.RecordedKeepsNewest | prompt_guard_gateway/context_engine.py:134-170 | after recording, the session holds its newest min(N, k + 1) rows, ending with the new one |
| ContextEngine.SuspiciousTurns | prompt_guard_gateway/context_engine.py:225 | the count of suspicious turns is at most the number of turns |
| ContextEngine.Messages | prompt_guard_gateway/context_engine.py:230 | the stored messages, one per turn, in order |
| ContextEngine.Hits | prompt_guard_gateway/context_engine.py:233-243 | a heuristic's hit count is at most the number of texts |
| ContextEngine.BonusedCapsOnce | prompt_guard_gateway/context_engine.py:229-251 | re-capping after each bonus equals adding all fired bonuses and capping once |
| ContextEngine.EvaluateScore | prompt_guard_gateway/context_engine.py:212-258 | the score is the amplified base plus all fired bonuses, capped at 1; it is never below the base, and the session is suspicious exactly from 0.4 on |
| ContextEngine.FlagsPresent | prompt_guard_gateway/context_engine.py:229-251 | each flag is present exactly when its heuristic fired |
| ContextEngine.FlagsOrdered | prompt_guard_gateway/context_engine.py:229-251 | at most four flags, each at most once, in checking order |
| ContextEngine.EvaluateFlags | prompt_guard_gateway/context_engine.py:229-251 | each flag of the evaluation is raised exactly when its heuristic fires on the window and the current text |
| ContextEngine.EmptyCurrentAddsNothing | prompt_guard_gateway/context_engine.py:218-222 | an empty current message adds nothing to the weighted total |
| ContextEngine.WeightedSumNonNegative | prompt_guard_gateway/context_engine.py:212-216 | with non-negative stored risks the weighted total is non-negative |
| ContextEngine.ConversationTracker.constructor | prompt_guard_gateway/context_engine.py:117-125 | a new tracker has no stored turns |
| ContextEngine.ConversationTracker.RecordTurn | prompt_guard_gateway/context_engine.py:134-170 | a blank session id changes nothing; otherwise only that session changes, by insert then trim |
| ContextEngine.ConversationTracker.GetLastTurns | prompt_guard_gateway/context_engine.py:172-197 | at most `limit` newest rows oldest first, all for a negative limit, none for a blank id |
| ContextEngine.ConversationTracker.EvaluateContext | prompt_guard_gateway/context_engine.py:199-258 | a blank session scores 0 with no flags; otherwise the evaluation of the stored window and the current text |
| Sanitizer.RemoveAll | prompt_guard_gateway/prompt_sanitizer.py:68-81 | deleting the spans right to left yields one action per span and keeps the text before the first span |
| Sanitizer.RemoveAllActions | prompt_guard_gateway/prompt_sanitizer.py:68-81 | each action records its kind, the exact deleted text and its start; the k-th action is the k-th span from the right |
| Sanitizer.RemoveAllKind | prompt_guard_gateway/prompt_sanitizer.py:68-81 | every action of a pattern carries that pattern's kind |
| Sanitizer.RemoveAllKeepsGaps | prompt_guard_gateway/prompt_sanitizer.py:68-81 | what remains is exactly the gaps between the spans, in order |
| Sanitizer.ApplyPatterns | prompt_guard_gateway/prompt_sanitizer.py:65-81 | matching each pattern against what the earlier ones left never lengthens the text |
| Sanitizer.ApplyPatternsShrinks | prompt_guard_gateway/prompt_sanitizer.py:65-81 | every deletion shortens the text by at least one character |
| Sanitizer.ApplyPatternsKinds | prompt_guard_gateway/prompt_sanitizer.py:65-81 | every action names the kind of one of the patterns |
| Sanitizer.ApplyPatternsNoMatch | prompt_guard_gateway/prompt_sanitizer.py:65-84 | when no pattern matches, nothing is deleted |
| Sanitizer.DropLeadingConnector | prompt_guard_gateway/prompt_sanitizer.py:109-111 | removing a leading connector never lengthens the text |
| Sanitizer.DropTrailingConnector | prompt_guard_gateway/prompt_sanitizer.py:112-113 | removing a trailing connector never lengthens the text |
| Sanitizer.DropConnectors | prompt_guard_gateway/prompt_sanitizer.py:108-113 | the connector loop never lengthens the text |
| Sanitizer.Collapse | prompt_guard_gateway/prompt_sanitizer.py:116 | no two neighbouring whitespace characters remain; never longer; empty only for empty input; a leading space stays a leading space |
| Sanitizer.TrimJunkStart | prompt_guard_gateway/prompt_sanitizer.py:119 | the result is a suffix of the input that does not start with `,;:` or whitespace |
| Sanitizer.TrimJunkEnd | prompt_guard_gateway/prompt_sanitizer.py:120 | the result is a prefix of the input that does not end with `,;:` or whitespace |
| Sanitizer.Capitalize | prompt_guard_gateway/prompt_sanitizer.py:123-125 | capitalising keeps the length (its shape is in CapitalizeShape) |
| Sanitizer.CapitalizeShape | prompt_guard_gateway/prompt_sanitizer.py:123-125 | no lower-case first letter afterwards; junk-free ends and no double whitespace are kept |
| Sanitizer.TrimmedShape | prompt_guard_gateway/prompt_sanitizer.py:119-120 | trimming keeps no double whitespace and leaves junk-free ends |
| Sanitizer.TidyShape | prompt_guard_gateway/prompt_sanitizer.py:115-127 | the tidied text is never longer, has no double whitespace, no junk at either end and no lower-case first letter |
| Sanitizer.CleanupShape | prompt_guard_gateway/prompt_sanitizer.py:106-127 | the same shape holds of the whole cleanup |
| Sanitizer.SanitizePrompt | prompt_guard_gateway/prompt_sanitizer.py:49-103 | the loops compute the sanitization record of the prompt |
| Sanitizer.ApplyAll | prompt_guard_gateway/prompt_sanitizer.py:65-81 | the catalogue loop computes the pattern-by-pattern deletion |
| Sanitizer.RemoveMatches | prompt_guard_gateway/prompt_sanitizer.py:68-81 | the inner loop deletes one pattern's matches last first |
| Sanitizer.FinishShape | prompt_guard_gateway/prompt_sanitizer.py:86-103 | the record keeps the original, counts its actions and is sanitized exactly when some action was recorded; a blank cleanup adds the complete-removal action and empties the result |
| Sanitizer.NoMatchNoActions | prompt_guard_gateway/prompt_sanitizer.py:84-103 | an unmatched prompt loses nothing but its tidying, or only the complete removal when it is blank |
| Sanitizer.SanitizeKinds | prompt_guard_gateway/prompt_sanitizer.py:65-103 | every action is of a catalogue kind or the complete removal |
| Sanitizer.SanitizedShorter | prompt_guard_gateway/prompt_sanitizer.py:65-103 | a non-empty sanitized prompt is strictly shorter than the original |
| Sanitizer.ShouldSanitizeCases | prompt_guard_gateway/prompt_sanitizer.py:130-148 | WARN, a BLOCK with risk in [0.4, 0.7], or SUSPICIOUS / REQUIRES_AUTH below 0.8 is borderline; an ALLOW outside those classes, a MALICIOUS block above 0.7 and a SAFE ALLOW are not |
| Sanitizer.RetryOn | prompt_guard_gateway/prompt_sanitizer.py:164-201 | the retry result carries the sanitization it was given |
| Sanitizer.RetryOnContract | prompt_guard_gateway/prompt_sanitizer.py:164-201 | the analyser runs only on a sanitized, non-blank prompt; success exactly when it ran and allowed or warned; an exception gives no analysis |
| Sanitizer.SanitizeAndRetryShorter | prompt_guard_gateway/prompt_sanitizer.py:162-184 | the prompt handed to the analyser is strictly shorter than the original, which bounds the re-analysis |
| Explainability.RuleIdInjective | prompt_guard_gateway/explainability_engine.py:7-23 | distinct rule numbers have distinct identifiers |
| Explainability.Select | prompt_guard_gateway/explainability_engine.py:52-105 | the identifiers of the fired rules, in rule order |
| Explainability.SelectMembers | prompt_guard_gateway/explainability_engine.py:52-105 | exactly the fired rules are selected |
| Explainability.SelectRange | prompt_guard_gateway/explainability_engine.py:52-105 | only rules of the range are selected |
| Explainability.SelectDistinct | prompt_guard_gateway/explainability_engine.py:52-105 | no rule is reported twice |
| Explainability.ContextRuleIds | prompt_guard_gateway/explainability_engine.py:88-103 | the identifiers of rules 11 to 15 are spelled RULE_11 … RULE_15 |
| Explainability.TriggeredRulesContract | prompt_guard_gateway/explainability_engine.py:52-105 | no duplicates; the attack-type and context rules fire exactly on their conditions, so rule 15 comes with rule 13 |
| Explainability.TriggeredRulesSearches | prompt_guard_gateway/explainability_engine.py:52-86 | each text rule fires exactly when its search matches the lower-cased text |
| Explainability.FactorKey | prompt_guard_gateway/explainability_engine.py:113-129 | every mapped factor key is a non-empty lower-case word |
| Explainability.FactorPhrase | prompt_guard_gateway/explainability_engine.py:37-49 | every factor phrase starts with a capital letter |
| Explainability.BeforeColon | prompt_guard_gateway/explainability_engine.py:133 | the head of a factor that does not start with a colon keeps its first character |
| Explainability.Heads | prompt_guard_gateway/explainability_engine.py:133 | one head per factor, in order |
| Explainability.RiskFactorsAllPhrases | prompt_guard_gateway/explainability_engine.py:108-136 | the duplicate guard never removes anything: one phrase per mapped rule |
| Explainability.RiskFactorsRepeat | prompt_guard_gateway/explainability_engine.py:108-136 | rules 1 and 2 together repeat a phrase |
| Explainability.RuleNames | prompt_guard_gateway/explainability_engine.py:153-155 | one named entry per rule |
| Explainability.TechnicalExplanationContract | prompt_guard_gateway/explainability_engine.py:139-163 | starts with the decision; a threat part iff the attack type is not NONE, a rules part iff some rule fired, a memory part iff the similarity is positive |
| Explainability.UserExplanationContract | prompt_guard_gateway/explainability_engine.py:166-189 | the user-safe notice is one of the four refusals for BLOCK, the review notice for WARN, the authentication or out-of-scope notice or none for ALLOW, and none otherwise |
| Explainability.Descriptions | prompt_guard_gateway/explainability_engine.py:234 | one catalogue description per triggered rule, in order |
| Explainability.ExplainableDecisionContract | prompt_guard_gateway/explainability_engine.py:192-252 | the decision is the action; rule 14 fires iff similarity >= 0.85; similarity and session risk are reported only when positive; the compliance flags follow the scope |
| Explainability.SanitizeForLoggingContract | prompt_guard_gateway/explainability_engine.py:255-267 | same keys, every entry but the explanations unchanged, and the explanations reduced to the technical and user-safe texts |
| Explainability.SanitizeDecisionForLogging | prompt_guard_gateway/explainability_engine.py:228-267 | logging a decision record never fails and drops only its internal reasoning |
| SelfCritic.ApplyReply | prompt_guard_gateway/self_critic_agent.py:145-191 | an explicit null `agrees_with_decision` counts as disagreement; the action changes exactly when the critic disagrees with a different non-empty action; the risk changes exactly when it disagrees and gives one; confidence is clamped to [0, 1]; the deltas are the differences; the feedback reports the agreement as given |
| SelfCritic.Reported | prompt_guard_gateway/self_critic_agent.py:180 | the agreement the feedback reports: null exactly for an explicit null, otherwise whether the critic agrees |
| SelfCritic.RunCritic | prompt_guard_gateway/self_critic_agent.py:70-193 | at or above the threshold nothing is asked and nothing changes; a failed call keeps the decision with zero deltas; an answer is applied |
| SelfCritic.AgreeingCriticKeepsDecision | prompt_guard_gateway/self_critic_agent.py:149-167 | an agreeing critic keeps action and risk and moves only the confidence |
| SelfCritic.NullAgreementDisagrees | prompt_guard_gateway/self_critic_agent.py:149-160 | a null agreement with a different suggested action replaces the action, and the feedback reports null |
| SelfCritic.UnparsableReplyKeepsDecision | prompt_guard_gateway/self_critic_agent.py:196-215 | an unparsable reply keeps a decision whose confidence is in [0, 1], validated, with zero deltas |
| GroqAgent.FastRuleCheck | prompt_guard_gateway/groq_security_agent.py:79-100 | a block exactly when some pattern matches, for the first matching pattern |
| GroqAgent.FastBlockContract | prompt_guard_gateway/groq_security_agent.py:84-99 | the block is MALICIOUS FAST_RULE at full risk, names its pattern, and its explanation reports no memory or session risk |
| GroqAgent.ClassifierVerdict | prompt_guard_gateway/groq_security_agent.py:174-192 | the parsed verdict, or the safe fallback with the parse-error or exception reasoning |
| GroqAgent.ClassifierFailureIsSafe | prompt_guard_gateway/groq_security_agent.py:183-192 | any classifier failure degrades to SAFE / ALLOW / IN_SCOPE at confidence 0.5 and risk 0 |
| GroqAgent.MemoryBoost | prompt_guard_gateway/groq_security_agent.py:292-298 | a recall at or above the threshold adds the boost (capped at 1) and prefixes the reasoning; otherwise nothing changes |
| GroqAgent.RiskSumBounds | prompt_guard_gateway/groq_security_agent.py:392 | risks in [0, 1] sum to between 0 and their count |
| GroqAgent.SessionRiskBounds | prompt_guard_gateway/groq_security_agent.py:392 | the session risk is 0 for no history and in [0, 1] for risks in [0, 1] |
| GroqAgent.EscalateSaturated | prompt_guard_gateway/groq_security_agent.py:359-372 | with a 0/1 score a detection adds 0.5 and blocks exactly the verdicts above 0.3 |
| GroqAgent.EscalateAfterTurn | prompt_guard_gateway/groq_security_agent.py:349-372 | after any turn, a detected escalation blocks every verdict whose risk was above 0.3; an undetected one changes nothing |
| GroqAgent.Analyze | prompt_guard_gateway/groq_security_agent.py:194-396 | every result is explained and a used sanitization is a real, shorter one; a fast-rule hit ends in the sanitized re-analysis or the pattern's block, and with nothing to re-analyse it records the text once as FAST_RULE and leaves the chains alone; otherwise the result carries the session's chain analysis after this turn, the critic's decision on the boosted verdict re-scored by it, the explanation of that verdict with the recalled similarity and session risk, and, without a re-analysis, the memory and the session changed only by this text's record and turn |
| GroqAgent.FastPath | prompt_guard_gateway/groq_security_agent.py:205-234 | nothing, with both stores unchanged, exactly when no pattern matches; on a hit, a sanitized re-analysis is used only when it allows or warns, otherwise the text is recorded as FAST_RULE and the block carries the recall's figures; with nothing to re-analyse the record starts from the initial memory and the chains stay |
| GroqAgent.FastRetry | prompt_guard_gateway/groq_security_agent.py:208-222 | a kept re-analysis is of a real, shorter sanitization, explained, allowed or warned, and marked as blocked by FAST_RULE; with nothing to re-analyse neither store changes |
| GroqAgent.RecordFast | prompt_guard_gateway/groq_security_agent.py:224-234 | the block records the text as FAST_RULE in threat memory and reports the record's id and the recall's similarity and frequency; nothing else in it changes |
| GroqAgent.ModelPath | prompt_guard_gateway/groq_security_agent.py:237-396 | the result carries the session's chain after this turn and the explanation of its verdict; unless a sanitized prompt was used, the verdict is the critic's decision on the boosted verdict re-scored by that chain; when the stage does not re-analyse, the memory is changed only by this text's record and the session only by this turn |
| GroqAgent.ModelVerdict | prompt_guard_gateway/groq_security_agent.py:293-322 | the critic judges the boosted verdict; a malicious or blocking verdict is recorded in threat memory with its attack type and the record's id is reported, otherwise the memory is unchanged and the recall's id is kept |
| GroqAgent.Conclude | prompt_guard_gateway/groq_security_agent.py:348-396 | the turn is added to the session with the verdict's scope, risk and classification; the verdict is re-scored by the session's chain analysis and explained over the text used, the recalled similarity and the mean risk of the last ten history entries; no other field of the analysis changes |
| GroqAgent.SanitizeStage | prompt_guard_gateway/groq_security_agent.py:324-346 | outside the borderline cases the analysis stays and neither store changes; in them the sanitization is recorded, and a retry replaces the analysis only when it succeeded; without a sanitized prompt left to analyse neither store changes |
| Governance.Or | prompt_guard_gateway/self_governance_engine.py:255-256 | `x or default` gives the default exactly for a missing or empty value (or the default itself) |
| Governance.HighRiskCount | prompt_guard_gateway/self_governance_engine.py:242 | the count is 0 exactly when no turn's risk is above 0.5 |
| Governance.SessionRiskSummary | prompt_guard_gateway/self_governance_engine.py:237-245 | no note exactly when none of the last six turns was risky; a note starts with the session-note prefix |
| Governance.HistoryLine | prompt_guard_gateway/self_governance_engine.py:255-257 | the line starts with the upper-cased role and holds at most 200 content characters |
| Governance.HistoryLines | prompt_guard_gateway/self_governance_engine.py:252-257 | one line per turn of the last six, oldest first |
| Governance.HistoryString | prompt_guard_gateway/self_governance_engine.py:248-258 | "None" for no history, else the lines joined by newlines |
| Governance.SafeReply | prompt_guard_gateway/self_governance_engine.py:283-295 | the default reply is safe, ALLOW, with the given reasoning |
| Governance.ReplyOf | prompt_guard_gateway/self_governance_engine.py:275-295 | the parsed reply, or the safe reply with the parse-error or LLM-error reasoning |
| Governance.Normalised | prompt_guard_gateway/self_governance_engine.py:374-382 | the upper-cased value when allowed, else the default |
| Governance.MapRiskToClassification | prompt_guard_gateway/self_governance_engine.py:298-307 | MALICIOUS exactly for a malicious level or scope; else an auth or out-of-scope scope; else SAFE |
| Governance.Reasons | prompt_guard_gateway/self_governance_engine.py:201 | one reason per risky segment, empty when missing |
| Governance.BuildExplainable | prompt_guard_gateway/self_governance_engine.py:183-217 | no triggered rules; the segment reasons as factors; the reasoning as technical and internal text; compliance flags follow the scope |
| Governance.FastResult | prompt_guard_gateway/self_governance_engine.py:104-131 | the fast block carries the pattern's verdict, the first 200 characters as the risky segment, and no escalation |
| Governance.Suggest | prompt_guard_gateway/self_governance_engine.py:398-408 | a rewrite is offered exactly for a warning with a non-empty suggestion that differs from the text |
| Governance.Assess | prompt_guard_gateway/self_governance_engine.py:374-408 | every field is in its vocabulary; the classification maps from risk level and scope; the sanitization follows the suggestion rule |
| Governance.FailureIsSafe | prompt_guard_gateway/self_governance_engine.py:359-372 | a failed or unparsable call is judged SAFE / ALLOW / IN_SCOPE / NONE at 0.5 and 0, in scope, with no rewrite |
| Governance.SafeReplyIsSafe | prompt_guard_gateway/self_governance_engine.py:283-295 | the safe default reply assesses as SAFE / ALLOW / IN_SCOPE with no rewrite |
| Governance.EscalateResult | prompt_guard_gateway/self_governance_engine.py:410-421 | the escalation re-score; a forced block replaces the user-safe text but the explained decision stays |
| Governance.EscalateKeepsVocabulary | prompt_guard_gateway/self_governance_engine.py:410-421 | the re-score keeps action and classification in their vocabularies |
| Governance.FastRuleCheck | prompt_guard_gateway/self_governance_engine.py:104-131 | a block exactly when some pattern matches, for the first matching pattern |
| Governance.EvaluateSessionEscalation | prompt_guard_gateway/self_governance_engine.py:449-477 | with the detector reachable, exactly this session gains the turn (the text cut to 200) and the result is its new chain analysis; otherwise no escalation and no change |
| Governance.Analyze | prompt_guard_gateway/self_governance_engine.py:314-446 | a fast-rule block with the chains unchanged, or the assessed reply re-scored by the session's escalation after exactly this turn was added, with every field in its vocabulary |
| BankingRules.Prefilter | prompt_guard_gateway/banking_rules.py:100-142 | blank text passes as "empty"; BLOCK exactly when a block rule fires (with its reason in priority order); ALLOW exactly when none fires and the whitelist matches |
| BankingRules.AdvisoryDoesNotExcuseBypass | prompt_guard_gateway/banking_rules.py:120-121 | a sensitive token with bypass or transaction wording blocks even when phrased as advice |
| BankingRules.AdvisoryQuestionFallsThrough | prompt_guard_gateway/banking_rules.py:123-137 | an advisory question without bypass, transaction or extraction wording is never blocked |
| Cache.KeyText | prompt_guard_gateway/cache_layer.py:19-21 | the key text has the text, then a colon, then the session |
| Cache.KeyTextAmbiguous | prompt_guard_gateway/cache_layer.py:19-21 | two different text/session pairs can share a key |
| Cache.HitRate | prompt_guard_gateway/cache_layer.py:54-55 | the rate is in [0, 1], 0 before any lookup, 1 exactly with hits and no misses |
| Cache.ResponseCache.constructor | prompt_guard_gateway/cache_layer.py:12-17 | an empty cache with zero counters |
| Cache.ResponseCache.Get | prompt_guard_gateway/cache_layer.py:23-35 | a hit exactly for a present, fresh key; a stale entry is deleted; exactly one counter rises |
| Cache.ResponseCache.OldestKey | prompt_guard_gateway/cache_layer.py:40 | a key with the smallest timestamp |
| Cache.ResponseCache.Set | prompt_guard_gateway/cache_layer.py:37-44 | at capacity an oldest entry is evicted first; the result is stored with the current time; the size never exceeds capacity |
| Cache.ResponseCache.Clear | prompt_guard_gateway/cache_layer.py:46-50 | no entries and zero counters |
| Cache.ResponseCache.GetStats | prompt_guard_gateway/cache_layer.py:52-64 | size, capacity, counters, hit rate and time-to-live |
| SecurityAgent.BlockReply | prompt_guard_gateway/security_agent.py:86 | the reply for the attack type, or the generic block reply |
| SecurityAgent.RouteOf | prompt_guard_gateway/security_agent.py:85-91 | a block or MALICIOUS gets a block reply; else a listed scope gets its reply; else the banking assistant |
| SecurityAgent.Exchanged | prompt_guard_gateway/security_agent.py:100-107 | the exchange is appended and only the newest 20 entries are kept |
| SecurityAgent.AgentState.constructor | prompt_guard_gateway/security_agent.py:54-75 | the state holds the message, session and history |
| SecurityAgent.AgentState.NodeAnalyze | prompt_guard_gateway/security_agent.py:54-75 | the analyser's verdict, or the SAFE / ALLOW fallback when it raises |
| SecurityAgent.AgentState.NodeRespond | prompt_guard_gateway/security_agent.py:77-114 | blocked and scoped messages get fixed replies and leave the history alone; the banking path answers and records; a failing assistant gets the helpline reply |
| SecurityAgent.BlockNeverReachesAgent | prompt_guard_gateway/security_agent.py:85-86 | a blocking verdict never reaches the banking assistant |
| SecurityAgent.FallbackReachesAgent | prompt_guard_gateway/security_agent.py:63-74 | the analyser's failure lets the message through to the assistant |
| BankingResponder.IntentRules | prompt_guard_gateway/banking_responder.py:76-108 | one rule per intent, in the listed order |
| BankingResponder.EveryIntentHasRule | prompt_guard_gateway/banking_responder.py:31-108 | every intent has a rule |
| BankingResponder.MatchIntent | prompt_guard_gateway/banking_responder.py:112-117 | the first intent whose pattern matches, or none |
| BankingResponder.LlmPrompt | prompt_guard_gateway/banking_responder.py:134-135 | the model prompt starts with the strict banking instructions |
| BankingResponder.Respond | prompt_guard_gateway/banking_responder.py:119-137 | a non-empty agent answer, else the matched template, else one downstream-model call |
| Stats.Insert | prompt_guard_gateway/stats.py:338 | inserting into a sorted list keeps it sorted and adds exactly the element |
| Stats.SortedOf | prompt_guard_gateway/stats.py:338 | the sort is sorted and a permutation of the values |
| Stats.Ceil | prompt_guard_gateway/stats.py:346 | `math.ceil`: the least integer at or above x |
| Stats.PercentileIndex | prompt_guard_gateway/stats.py:346 | the nearest-rank index is clamped into the list |
| Stats.PercentileIndexMonotone | prompt_guard_gateway/stats.py:346 | a higher percentile never selects an earlier index |
| Stats.Pct | prompt_guard_gateway/stats.py:342-347 | the nearest-rank element of the sorted values: the only one for a single value, otherwise the one at the clamped index |
| Stats.PerformanceMetrics | prompt_guard_gateway/stats.py:334-353 | zeros for no values; the mean of the values; p95 and p99 are the nearest-rank elements of the sorted values, with p95 <= p99 |
| Stats.PercentilesOrdered | prompt_guard_gateway/stats.py:342-353 | over sorted values the 95th percentile is at most the 99th |
| Stats.LabelDistribution | prompt_guard_gateway/stats.py:397-400 | the loop computes the label counts over the rows |
| Stats.LastRowWith | prompt_guard_gateway/stats.py:398-399 | the last row with a key, or none when no row has it |
| Stats.LabelCountsContract | prompt_guard_gateway/stats.py:397-400 | the defaults are always present, another key exactly when some row has it; a key counts its last row, and a default no row has stays 0 |

## Left out

- Regular expressions are not interpreted: each search is a `string -> bool` parameter, and the sanitizer's match spans come from a parameter too. What the patterns accept is not modelled.
- Case mapping (`lower`, `upper`) covers ASCII letters only.
- The language-model clients, prompts and JSON parsing are outside the model. A model call is a datatype holding the exception or the parsed reply.
- Embedding computation, cosine similarity, SHA-256 and the clock are parameters.
- SQLite persistence, the JSON files and the statistics collector's SQL queries are outside the model. Stores are in-memory sequences and maps, and the statistics work on the fetched rows.
- Of `stats.py`, only `performance_metrics` and `label_distribution` are modelled.
- Floating-point rounding (`round(x, 3)`) and number formatting are not modelled. Reals are exact, and formatting is a `fmt`/`showInt` parameter.
- `inference_ms`, logging, the LangGraph wiring and `node_log` are not modelled.
- Threading locks and the `get_default_*` singletons are not modelled.
- Explainability.TriggeredRulesContract: the rules come out in catalogue order, not Python's set iteration order.
- Explainability.UserExplanationContract: proves the notice is one of the fixed sentences, not the banned-word property the explanations promise. Checking substrings of the literal sentences would unroll every character of each, which the verifier cannot afford.
- GroqAgent.Analyze: when a sanitized prompt was analysed again, the contract does not say what that re-analysis recorded in threat memory or added to the session; both stores are only stated to stay valid.
- AttackChain: the detectors' `description` strings (attack_chain_detector.py:140, 166, 193, 218) are not modelled; the rest of each detection is.
- SelfCritic: a null `critic_reasoning`, `false_positive_detected` or `false_negative_detected` is read as absent; only a null `agrees_with_decision` is told apart.
- Cache.ResponseCache.Set: evicts some key with the smallest timestamp. Python's `min` picks the first such key in insertion order, and the map does not keep that order.
- SecurityAgent.AgentState.NodeRespond: the history is a value. The aliasing of the caller's list, which `append` mutates in place, is not modelled.
- Governance.FastResult: the attack-chain entry of the fast result is the no-escalation record. The source's dictionary for it lacks the `attack_graph` key.
- Constant `None`/`False` fields of the result dictionaries are left out, as are null JSON values that make `float()` raise.
- The sanitizer's `aggressive` parameter is not modelled; the source never reads it.
