/** Multi-turn attack-chain detection: a per-session FIFO of turns, four structural
    detectors over the most recent turns, an escalation score and a turn graph. */
module AttackChain {
  import opened Util

  /** One stored turn; `timestamp` is the ISO text supplied by the caller's clock. */
  datatype TurnNode = TurnNode(
    turnNumber: int,
    text: string,
    intent: string,
    riskScore: real,
    classification: string,
    attackType: string,
    timestamp: string)

  datatype Severity = Low | Medium | High | Critical

  function Weight(s: Severity): real {
    match s
    case Low => 1.0
    case Medium => 1.5
    case High => 2.0
    case Critical => 3.0
  }

  datatype PatternKind = IntentEvolution | PrivilegeEscalation | SemanticDrift | RiskEscalation

  /** Position of a pattern kind in the order the detectors run. */
  function Rank(k: PatternKind): nat {
    match k
    case IntentEvolution => 0
    case PrivilegeEscalation => 1
    case SemanticDrift => 2
    case RiskEscalation => 3
  }

  datatype Pattern = Pattern(kind: PatternKind, severity: Severity, turnsInvolved: seq<int>)

  datatype Node = Node(id: int, text: string, intent: string, risk: real, classification: string, attackType: string)
  datatype Edge = Edge(from: int, to: int, riskDelta: real, escalation: bool)
  datatype Graph = Graph(nodes: seq<Node>, edges: seq<Edge>)

  /** The analysis record; `turnCount` is absent when fewer than two turns are stored. */
  datatype ChainAnalysis = ChainAnalysis(
    escalationDetected: bool,
    escalationScore: real,
    graph: Graph,
    patterns: seq<Pattern>,
    turnCount: Option<nat>)

  datatype Summary = Summary(
    sessionId: string,
    turnCount: nat,
    firstTurn: Option<string>,
    lastTurn: Option<string>,
    maxRisk: real,
    avgRisk: real,
    escalationDetected: bool,
    escalationScore: real,
    patterns: seq<Pattern>)

  const PrivilegeKeywords: seq<string> := [
    "admin", "administrator", "root", "sudo", "developer",
    "test", "demo", "debug", "authorized", "special access"]

  /** Python's `s[-m:]` for any integer m: the last m items for m > 0, everything for
      m == 0, and everything but the first -m items for m < 0. */
  function PySuffix<T>(s: seq<T>, m: int): (r: seq<T>)
    ensures m > 0 ==> |r| == (if |s| < m then |s| else m)
    ensures m == 0 ==> r == s
    ensures |r| <= |s| && r == s[|s| - |r|..]
  {
    if m > 0 then Last(s, m)
    else if m == 0 then s
    else if -m >= |s| then []
    else s[-m..]
  }

  /** The trim applied after each append (only when the list outgrew the cap). */
  function Trim(s: seq<TurnNode>, maxHistory: int): seq<TurnNode> {
    if |s| > maxHistory then PySuffix(s, maxHistory) else s
  }

  /** The session after one `add_turn`: the new node is numbered by the length before
      the append, its text cut to 200 characters, then the list is trimmed. */
  function Appended(s: seq<TurnNode>, maxHistory: int, text: string, intent: string, risk: real,
                    classification: string, attackType: string, now: string): seq<TurnNode>
  {
    Trim(s + [TurnNode(|s| + 1, Take(text, 200), intent, risk, classification, attackType, now)], maxHistory)
  }

  lemma AppendedKeepsRecent(s: seq<TurnNode>, maxHistory: int, text: string, intent: string, risk: real,
                            classification: string, attackType: string, now: string)
    requires maxHistory >= 1
    ensures var r := Appended(s, maxHistory, text, intent, risk, classification, attackType, now);
      && |r| == (if |s| + 1 < maxHistory then |s| + 1 else maxHistory)
      && r == (s + [r[|r| - 1]])[|s| + 1 - |r|..]
      && r[|r| - 1] == TurnNode(|s| + 1, Take(text, 200), intent, risk, classification, attackType, now)
  {
  }

  lemma AppendedBound(s: seq<TurnNode>, maxHistory: int, text: string, intent: string, risk: real,
                            classification: string, attackType: string, now: string)
    ensures maxHistory >= 1 && |s| <= maxHistory ==> |Appended(s, maxHistory, text, intent, risk, classification, attackType, now)| <= maxHistory
  {
  }

  function Numbers(ts: seq<TurnNode>): (r: seq<int>)
    ensures |r| == |ts| && forall i :: 0 <= i < |ts| ==> r[i] == ts[i].turnNumber
  {
    if ts == [] then [] else [ts[0].turnNumber] + Numbers(ts[1..])
  }

  /** The turn data fed to `add_turn`, for reasoning about several calls in a row. */
  datatype TurnInput = TurnInput(text: string, intent: string, risk: real, classification: string, attackType: string, now: string)

  /** The session after feeding `inputs`, one `add_turn` each, to an empty session. */
  function Feed(inputs: seq<TurnInput>, maxHistory: int): seq<TurnNode>
  {
    if inputs == [] then []
    else
      var t := inputs[|inputs| - 1];
      Appended(Feed(inputs[..|inputs| - 1], maxHistory), maxHistory, t.text, t.intent, t.risk, t.classification, t.attackType, t.now)
  }

  function MinInt(a: int, b: int): int {
    if a <= b then a else b
  }

  /** The numbering pattern of a session that has seen n turns under cap m. */
  predicate Plateau(s: seq<TurnNode>, n: int, m: int) {
    && |s| == MinInt(n, m)
    && forall j :: 0 <= j < |s| ==> s[j].turnNumber == MinInt(n - |s| + 1 + j, m + 1)
  }

  lemma PlateauStep(p: seq<TurnNode>, n: nat, m: int, t: TurnInput)
    requires m >= 1 && Plateau(p, n, m)
    ensures Plateau(Appended(p, m, t.text, t.intent, t.risk, t.classification, t.attackType, t.now), n + 1, m)
  {
    var s := Appended(p, m, t.text, t.intent, t.risk, t.classification, t.attackType, t.now);
    AppendedKeepsRecent(p, m, t.text, t.intent, t.risk, t.classification, t.attackType, t.now);
    var grown := p + [s[|s| - 1]];
    var d := |p| + 1 - |s|;
    forall j | 0 <= j < |s| ensures s[j].turnNumber == MinInt(n + 1 - |s| + 1 + j, m + 1) {
      assert s[j] == grown[j + d];
      if j + d < |p| {
        assert grown[j + d] == p[j + d];
      }
    }
  }

  /** Turn numbers plateau once the cap is reached: after n turns with cap m, the
      stored numbers are min(n - L + 1 + j, m + 1) for j < L = min(n, m). */
  lemma {:induction false} FeedNumbers(inputs: seq<TurnInput>, m: int)
    requires m >= 1
    ensures Plateau(Feed(inputs, m), |inputs|, m)
  {
    if inputs != [] {
      var prev := inputs[..|inputs| - 1];
      FeedNumbers(prev, m);
      PlateauStep(Feed(prev, m), |prev|, m, inputs[|inputs| - 1]);
    }
  }

  /** The maximum-history test: five kept turns out of ten, the first numbered 6. */
  lemma TenTurnsCapFive(inputs: seq<TurnInput>)
    requires |inputs| == 10
    ensures |Feed(inputs, 5)| == 5 && Feed(inputs, 5)[0].turnNumber == 6
  {
    FeedNumbers(inputs, 5);
  }

  // ----- detectors -------------------------------------------------------------------

  predicate Innocent(classification: string) {
    classification == "SAFE" || classification == "REQUIRES_AUTH"
  }

  /** Each risk is at most the next one plus 0.2. */
  predicate Gradual(recent: seq<TurnNode>) {
    forall i :: 0 <= i < |recent| - 1 ==> recent[i].riskScore <= recent[i + 1].riskScore + 0.2
  }

  /** `_detect_intent_evolution`: fires exactly when at least three turns are stored and
      the last five start innocent, end MALICIOUS and never drop by more than 0.2. */
  function DetectIntentEvolution(turns: seq<TurnNode>): (r: Option<Pattern>)
    ensures r.Some? <==>
      && |turns| >= 3
      && Innocent(Last(turns, 5)[0].classification)
      && Last(turns, 5)[|Last(turns, 5)| - 1].classification == "MALICIOUS"
      && Gradual(Last(turns, 5))
    ensures r.Some? ==> r.value.kind == IntentEvolution && r.value.severity == High
                        && r.value.turnsInvolved == Numbers(Last(turns, 5))
  {
    if |turns| < 3 then None
    else
      var recent := Last(turns, 5);
      if Innocent(recent[0].classification) && recent[|recent| - 1].classification == "MALICIOUS" && Gradual(recent)
      then Some(Pattern(IntentEvolution, High, Numbers(recent)))
      else None
  }

  /** `any(kw in text.lower() for kw in privilege_keywords)` */
  predicate MentionsPrivilege(text: string) {
    exists k :: 0 <= k < |PrivilegeKeywords| && Contains(Lower(text), PrivilegeKeywords[k])
  }

  /** The positions of the turns whose text mentions a privilege keyword: increasing,
      each one mentions a keyword, and no mentioning turn is missed. */
  function HitPositions(recent: seq<TurnNode>): (idx: seq<nat>)
    ensures forall k :: 0 <= k < |idx| ==> idx[k] < |recent| && MentionsPrivilege(recent[idx[k]].text)
    ensures forall k, l :: 0 <= k < l < |idx| ==> idx[k] < idx[l]
    ensures forall i :: 0 <= i < |recent| && MentionsPrivilege(recent[i].text) ==> i in idx
    decreases |recent|
  {
    if recent == [] then []
    else
      var init := recent[..|recent| - 1];
      assert forall i :: 0 <= i < |init| ==> init[i] == recent[i];
      HitPositions(init) + (if MentionsPrivilege(recent[|recent| - 1].text) then [|recent| - 1] else [])
  }

  /** Turn numbers of the turns whose text mentions a privilege keyword: one per
      mentioning turn, in window order. */
  function PrivilegeHits(recent: seq<TurnNode>): (r: seq<int>)
    ensures |r| == |HitPositions(recent)|
    ensures forall k :: 0 <= k < |r| ==> r[k] == recent[HitPositions(recent)[k]].turnNumber
    decreases |recent|
  {
    if recent == [] then []
    else
      var init := recent[..|recent| - 1];
      assert forall i :: 0 <= i < |init| ==> init[i] == recent[i];
      PrivilegeHits(init) + (if MentionsPrivilege(recent[|recent| - 1].text) then [recent[|recent| - 1].turnNumber] else [])
  }

  /** `_detect_privilege_escalation`: fires exactly when at least two of the last five
      turns mention a privilege keyword, and involves exactly those turns. */
  function DetectPrivilegeEscalation(turns: seq<TurnNode>): (r: Option<Pattern>)
    ensures r.Some? <==> |HitPositions(Last(turns, 5))| >= 2
    ensures r.Some? ==> |turns| >= 2 && r.value.kind == PrivilegeEscalation && r.value.severity == Critical
                        && r.value.turnsInvolved == PrivilegeHits(Last(turns, 5))
  {
    var hits := PrivilegeHits(Last(turns, 5));
    if |hits| >= 2 then
      assert HitPositions(Last(turns, 5))[0] < HitPositions(Last(turns, 5))[1];
      Some(Pattern(PrivilegeEscalation, Critical, hits))
    else None
  }

  function Intents(recent: seq<TurnNode>): set<string> {
    set t | t in recent :: t.intent
  }

  /** `_detect_semantic_drift`: fires exactly when at least four turns are stored and the
      last six show three or more distinct intents with the risk risen by more than 0.3. */
  function DetectSemanticDrift(turns: seq<TurnNode>): (r: Option<Pattern>)
    ensures r.Some? <==>
      && |turns| >= 4
      && |Intents(Last(turns, 6))| >= 3
      && Last(turns, 6)[|Last(turns, 6)| - 1].riskScore > Last(turns, 6)[0].riskScore + 0.3
    ensures r.Some? ==> r.value.kind == SemanticDrift && r.value.severity == Medium
                        && r.value.turnsInvolved == Numbers(Last(turns, 6))
  {
    if |turns| < 4 then None
    else
      var recent := Last(turns, 6);
      if |Intents(recent)| >= 3 && recent[|recent| - 1].riskScore > recent[0].riskScore + 0.3
      then Some(Pattern(SemanticDrift, Medium, Numbers(recent)))
      else None
  }

  /** Number of i with risk[i+1] > risk[i]. */
  function Increases(recent: seq<TurnNode>): (r: nat)
    ensures |recent| >= 1 ==> r <= |recent| - 1
  {
    if |recent| < 2 then 0
    else (if recent[1].riskScore > recent[0].riskScore then 1 else 0) + Increases(recent[1..])
  }

  /** `_detect_risk_escalation`: fires exactly when at least three turns are stored and
      the last five rise at all but at most one step, by more than 0.4 overall. */
  function DetectRiskEscalation(turns: seq<TurnNode>): (r: Option<Pattern>)
    ensures r.Some? <==>
      && |turns| >= 3
      && Increases(Last(turns, 5)) >= |Last(turns, 5)| - 2
      && Last(turns, 5)[|Last(turns, 5)| - 1].riskScore - Last(turns, 5)[0].riskScore > 0.4
    ensures r.Some? ==> r.value.kind == RiskEscalation && r.value.severity == High
                        && r.value.turnsInvolved == Numbers(Last(turns, 5))
  {
    if |turns| < 3 then None
    else
      var recent := Last(turns, 5);
      if Increases(recent) >= |recent| - 2 && recent[|recent| - 1].riskScore - recent[0].riskScore > 0.4
      then Some(Pattern(RiskEscalation, High, Numbers(recent)))
      else None
  }

  // ----- score and graph -------------------------------------------------------------

  function SumWeights(ps: seq<Pattern>): (r: real)
    ensures r >= 1.0 * |ps| as real
  {
    if ps == [] then 0.0 else Weight(ps[0].severity) + SumWeights(ps[1..])
  }

  /** The damping factor 1 - 1/(1+k^2) for k fired patterns. */
  function Damping(k: nat): (r: real)
    requires k >= 1
    ensures 0.5 <= r < 1.0
    ensures k == 1 ==> r == 0.5
    ensures k >= 2 ==> r >= 0.8
  {
    var x := k as real;
    assert 1.0 + x * x >= 2.0 by { assert x * x >= x; }
    assert k >= 2 ==> 1.0 + x * x >= 5.0 by {
      if k >= 2 { assert x * x >= 2.0 * x; }
    }
    1.0 - 1.0 / (1.0 + x * x)
  }

  /** The mean severity weight of the fired patterns. */
  function MeanWeight(ps: seq<Pattern>): (r: real)
    requires ps != []
    ensures r >= 1.0
  {
    DivAtLeast(SumWeights(ps), |ps| as real, 1.0);
    SumWeights(ps) / |ps| as real
  }

  /** The turn factor min(1, n/10). */
  function TurnFactor(n: nat): (r: real)
    ensures 0.0 <= r <= 1.0
    ensures r >= 0.1 * n as real || r == 1.0
  {
    Min(1.0, n as real / 10.0)
  }

  /** `_calculate_escalation_score`: 0 with no pattern, otherwise
      min(1, damping * mean weight * (1 + turn factor)). */
  function EscalationScore(ps: seq<Pattern>, turnCount: nat): (r: real)
    ensures 0.0 <= r <= 1.0
    ensures r == 0.0 <==> ps == []
  {
    if ps == [] then 0.0
    else
      CappedScore(Damping(|ps|), MeanWeight(ps), TurnFactor(turnCount))
  }

  /** min(1, base * multiplier * (1 + turn factor)): positive, and 1 exactly when the
      uncapped product reaches 1. */
  function CappedScore(base: real, multiplier: real, turnFactor: real): (r: real)
    requires 0.0 < base && 0.0 < multiplier && 0.0 <= turnFactor
    ensures 0.0 < r <= 1.0
    ensures r == 1.0 <==> base * multiplier * (1.0 + turnFactor) >= 1.0
  {
    assert base * multiplier > 0.0;
    Min(1.0, base * multiplier * (1.0 + turnFactor))
  }

  function NodeText(text: string): (r: string)
    ensures |r| <= 53
    ensures |text| <= 50 ==> r == text
  {
    if |text| > 50 then text[..50] + "..." else text
  }

  function NodeOf(t: TurnNode): Node {
    Node(t.turnNumber, NodeText(t.text), t.intent, t.riskScore, t.classification, t.attackType)
  }

  function EdgeOf(a: TurnNode, b: TurnNode): Edge {
    Edge(a.turnNumber, b.turnNumber, b.riskScore - a.riskScore, b.riskScore - a.riskScore > 0.2)
  }

  function Nodes(turns: seq<TurnNode>): (r: seq<Node>)
    ensures |r| == |turns| && forall i :: 0 <= i < |turns| ==> r[i] == NodeOf(turns[i])
  {
    if turns == [] then [] else [NodeOf(turns[0])] + Nodes(turns[1..])
  }

  function Edges(turns: seq<TurnNode>): (r: seq<Edge>)
    ensures |r| == (if |turns| == 0 then 0 else |turns| - 1)
    ensures forall i :: 0 <= i < |r| ==> r[i] == EdgeOf(turns[i], turns[i + 1])
  {
    if |turns| < 2 then [] else [EdgeOf(turns[0], turns[1])] + Edges(turns[1..])
  }

  function BuildGraph(turns: seq<TurnNode>): Graph {
    Graph(Nodes(turns), Edges(turns))
  }

  /** One node per turn, one edge per consecutive pair, escalation iff the delta
      exceeds 0.2. */
  lemma GraphShape(turns: seq<TurnNode>)
    ensures var g := BuildGraph(turns);
      && |g.nodes| == |turns|
      && |g.edges| == (if turns == [] then 0 else |turns| - 1)
      && (forall i :: 0 <= i < |g.nodes| ==> g.nodes[i].id == turns[i].turnNumber && |g.nodes[i].text| <= 53)
      && (forall i :: 0 <= i < |g.edges| ==>
            g.edges[i].from == turns[i].turnNumber && g.edges[i].to == turns[i + 1].turnNumber
            && (g.edges[i].escalation <==> turns[i + 1].riskScore - turns[i].riskScore > 0.2))
  {
    var g := BuildGraph(turns);
    forall i | 0 <= i < |g.nodes| ensures g.nodes[i].id == turns[i].turnNumber && |g.nodes[i].text| <= 53 {
      assert g.nodes[i] == NodeOf(turns[i]);
    }
    forall i | 0 <= i < |g.edges|
      ensures g.edges[i].from == turns[i].turnNumber && g.edges[i].to == turns[i + 1].turnNumber
      ensures g.edges[i].escalation <==> turns[i + 1].riskScore - turns[i].riskScore > 0.2
    {
      assert g.edges[i] == EdgeOf(turns[i], turns[i + 1]);
    }
  }

  // ----- analysis --------------------------------------------------------------------

  function Fired(p: Option<Pattern>): seq<Pattern> {
    if p.Some? then [p.value] else []
  }

  function DetectAll(turns: seq<TurnNode>): seq<Pattern> {
    Fired(DetectIntentEvolution(turns)) + Fired(DetectPrivilegeEscalation(turns))
    + Fired(DetectSemanticDrift(turns)) + Fired(DetectRiskEscalation(turns))
  }

  function AnalyzeChain(turns: seq<TurnNode>): ChainAnalysis {
    if |turns| < 2 then ChainAnalysis(false, 0.0, BuildGraph(turns), [], None)
    else
      var patterns := DetectAll(turns);
      ChainAnalysis(|patterns| > 0, EscalationScore(patterns, |turns|), BuildGraph(turns), patterns, Some(|turns|))
  }

  /** Fewer than two turns: nothing detected, score 0, and no turn count in the result. */
  lemma ShortChainResult(turns: seq<TurnNode>)
    requires |turns| < 2
    ensures var a := AnalyzeChain(turns);
      !a.escalationDetected && a.escalationScore == 0.0 && a.patterns == [] && a.turnCount.None?
  {
  }

  /** Patterns listed in detector order. */
  predicate Ordered(ps: seq<Pattern>) {
    forall i, j :: 0 <= i < j < |ps| ==> Rank(ps[i].kind) < Rank(ps[j].kind)
  }

  lemma OrderedAppend(x: seq<Pattern>, y: seq<Pattern>)
    requires Ordered(x) && Ordered(y)
    requires forall p, q :: p in x && q in y ==> Rank(p.kind) < Rank(q.kind)
    ensures Ordered(x + y)
  {
    forall i, j | 0 <= i < j < |x + y| ensures Rank((x + y)[i].kind) < Rank((x + y)[j].kind) {
      if j < |x| {
        assert (x + y)[i] == x[i] && (x + y)[j] == x[j];
      } else if i >= |x| {
        assert (x + y)[i] == y[i - |x|] && (x + y)[j] == y[j - |x|];
      } else {
        assert (x + y)[i] in x && (x + y)[j] in y;
      }
    }
  }

  /** Prepending at most one pattern of rank k to an ordered list of higher ranks. */
  lemma OrderedPrepend(p: Option<Pattern>, k: nat, rest: seq<Pattern>)
    requires p.Some? ==> Rank(p.value.kind) == k
    requires Ordered(rest) && forall i :: 0 <= i < |rest| ==> Rank(rest[i].kind) > k
    ensures Ordered(Fired(p) + rest)
    ensures forall i :: 0 <= i < |Fired(p) + rest| ==> Rank((Fired(p) + rest)[i].kind) >= k
  {
    var ps := Fired(p) + rest;
    if p.Some? {
      assert forall i :: 1 <= i < |ps| ==> ps[i] == rest[i - 1];
    } else {
      assert ps == rest;
    }
  }

  lemma Regroup<T>(a: seq<T>, b: seq<T>, c: seq<T>, d: seq<T>)
    ensures a + b + c + d == a + (b + (c + d))
  {
  }

  /** Four optional results of kinds 0..3 concatenate to a list in detector order, which
      is empty iff none of them is present. */
  lemma FiredInOrder(ie: Option<Pattern>, pe: Option<Pattern>, sd: Option<Pattern>, re: Option<Pattern>)
    requires ie.Some? ==> ie.value.kind == IntentEvolution
    requires pe.Some? ==> pe.value.kind == PrivilegeEscalation
    requires sd.Some? ==> sd.value.kind == SemanticDrift
    requires re.Some? ==> re.value.kind == RiskEscalation
    ensures var ps := Fired(ie) + Fired(pe) + Fired(sd) + Fired(re);
      && Ordered(ps)
      && (|ps| > 0 <==> ie.Some? || pe.Some? || sd.Some? || re.Some?)
  {
    var a, b, c, d := Fired(ie), Fired(pe), Fired(sd), Fired(re);
    OrderedPrepend(re, 3, []);
    assert d + [] == d;
    OrderedPrepend(sd, 2, d);
    OrderedPrepend(pe, 1, c + d);
    OrderedPrepend(ie, 0, b + (c + d));
    Regroup(a, b, c, d);
  }

  /** Escalation is detected iff some detector fired; the patterns are exactly the fired
      ones, in detector order. */
  lemma AnalyzeChainPatterns(turns: seq<TurnNode>)
    requires |turns| >= 2
    ensures var a := AnalyzeChain(turns);
      && (a.escalationDetected <==>
            DetectIntentEvolution(turns).Some? || DetectPrivilegeEscalation(turns).Some?
            || DetectSemanticDrift(turns).Some? || DetectRiskEscalation(turns).Some?)
      && Ordered(a.patterns)
      && a.turnCount == Some(|turns|)
  {
    FiredInOrder(DetectIntentEvolution(turns), DetectPrivilegeEscalation(turns),
                 DetectSemanticDrift(turns), DetectRiskEscalation(turns));
  }

  lemma DivAtLeast(x: real, k: real, c: real)
    requires k > 0.0 && x >= c * k
    ensures x / k >= c
  {
    assert x / k * k == x;
  }

  lemma MulAtLeast(a: real, b: real, c: real, a0: real, b0: real, c0: real)
    requires 0.0 <= a0 <= a && 0.0 <= b0 <= b && 0.0 <= c0 <= c
    ensures a0 * b0 * c0 <= a * b * c
  {
    assert a0 * b0 <= a * b0 <= a * b;
    assert (a0 * b0) * c0 <= (a * b) * c0 <= (a * b) * c;
  }

  /** Factors bounded below by numbers whose product reaches 1 cap the score at 1. */
  lemma CappedSaturates(base: real, multiplier: real, turnFactor: real, a0: real, b0: real, c0: real)
    requires 0.0 < a0 <= base && 0.0 < b0 <= multiplier && 0.0 <= turnFactor && 0.0 <= c0 <= 1.0 + turnFactor
    requires a0 * b0 * c0 >= 1.0
    ensures CappedScore(base, multiplier, turnFactor) == 1.0
  {
    MulAtLeast(base, multiplier, 1.0 + turnFactor, a0, b0, c0);
  }

  /** What the score lemma needs of the fired patterns: no LOW severity, and MEDIUM
      (semantic drift) only with at least four turns. */
  predicate Saturating(ps: seq<Pattern>, n: nat) {
    forall i :: 0 <= i < |ps| ==> ps[i].severity != Low && (ps[i].severity == Medium ==> n >= 4)
  }

  lemma {:induction false} SumWeightsAtLeast(ps: seq<Pattern>, n: nat)
    requires Saturating(ps, n)
    ensures SumWeights(ps) >= 1.5 * |ps| as real
  {
    if ps != [] {
      assert Saturating(ps[1..], n) by {
        forall i | 0 <= i < |ps| - 1 ensures ps[1..][i] == ps[i + 1] { }
      }
      SumWeightsAtLeast(ps[1..], n);
    }
  }

  lemma SaturatingAppend(x: seq<Pattern>, y: seq<Pattern>, n: nat)
    requires Saturating(x, n) && Saturating(y, n)
    ensures Saturating(x + y, n)
  {
    forall i | 0 <= i < |x + y| ensures (x + y)[i].severity != Low && ((x + y)[i].severity == Medium ==> n >= 4) {
      if i < |x| { assert (x + y)[i] == x[i]; } else { assert (x + y)[i] == y[i - |x|]; }
    }
  }

  lemma FiredSaturating(p: Option<Pattern>, n: nat)
    requires p.Some? ==> p.value.severity != Low && (p.value.severity == Medium ==> n >= 4)
    ensures Saturating(Fired(p), n)
  {
  }

  /** Four fired results of the detectors' severities concatenate to a saturating list. */
  lemma FourSaturating(ie: Option<Pattern>, pe: Option<Pattern>, sd: Option<Pattern>, re: Option<Pattern>, n: nat)
    requires ie.Some? ==> ie.value.severity == High
    requires pe.Some? ==> pe.value.severity == Critical
    requires sd.Some? ==> sd.value.severity == Medium && n >= 4
    requires re.Some? ==> re.value.severity == High
    ensures Saturating(Fired(ie) + Fired(pe) + Fired(sd) + Fired(re), n)
  {
    FiredSaturating(ie, n);
    FiredSaturating(pe, n);
    FiredSaturating(sd, n);
    FiredSaturating(re, n);
    SaturatingAppend(Fired(ie), Fired(pe), n);
    SaturatingAppend(Fired(ie) + Fired(pe), Fired(sd), n);
    SaturatingAppend(Fired(ie) + Fired(pe) + Fired(sd), Fired(re), n);
  }

  lemma DetectAllSaturating(turns: seq<TurnNode>)
    ensures Saturating(DetectAll(turns), |turns|)
  {
    FourSaturating(DetectIntentEvolution(turns), DetectPrivilegeEscalation(turns),
                   DetectSemanticDrift(turns), DetectRiskEscalation(turns), |turns|);
  }

  /** A non-empty saturating pattern list scores exactly 1 once two turns are stored. */
  lemma ScoreSaturates(ps: seq<Pattern>, n: nat)
    requires ps != [] && n >= 2 && Saturating(ps, n)
    ensures EscalationScore(ps, n) == 1.0
  {
    SumWeightsAtLeast(ps, n);
    DivAtLeast(SumWeights(ps), |ps| as real, 1.5);
    assert TurnFactor(n) >= 0.2;
    if |ps| >= 2 {
      CappedSaturates(Damping(|ps|), MeanWeight(ps), TurnFactor(n), 0.8, 1.5, 1.2);
    } else if ps[0].severity == Medium {
      CappedSaturates(Damping(|ps|), MeanWeight(ps), TurnFactor(n), 0.5, 1.5, 1.4);
    } else {
      assert MeanWeight(ps) >= 2.0;
      CappedSaturates(Damping(|ps|), MeanWeight(ps), TurnFactor(n), 0.5, 2.0, 1.2);
    }
  }

  /** With the detectors' severities the score saturates: every analysis scores
      exactly 0 (nothing detected) or exactly 1. */
  lemma ScoreIsZeroOrOne(turns: seq<TurnNode>)
    ensures var a := AnalyzeChain(turns);
      a.escalationScore == (if a.escalationDetected then 1.0 else 0.0)
  {
    if |turns| >= 2 && DetectAll(turns) != [] {
      DetectAllSaturating(turns);
      ScoreSaturates(DetectAll(turns), |turns|);
    }
  }

  function SumRisk(ts: seq<TurnNode>): real {
    if ts == [] then 0.0 else ts[0].riskScore + SumRisk(ts[1..])
  }

  function MaxRisk(ts: seq<TurnNode>): (r: real)
    requires ts != []
    ensures forall i :: 0 <= i < |ts| ==> ts[i].riskScore <= r
    ensures exists i :: 0 <= i < |ts| && ts[i].riskScore == r
  {
    if |ts| == 1 then ts[0].riskScore
    else
      var rest := MaxRisk(ts[1..]);
      assert forall i :: 1 <= i < |ts| ==> ts[i] == ts[1..][i - 1];
      if ts[0].riskScore >= rest then ts[0].riskScore else rest
  }

  // ----- the stateful detector -------------------------------------------------------

  class AttackChainDetector {
    const maxHistory: int
    var sessions: map<string, seq<TurnNode>>

    constructor (maxHistory: int)
      ensures this.maxHistory == maxHistory && sessions == map[]
    {
      this.maxHistory := maxHistory;
      sessions := map[];
    }

    /** Every stored session respects the cap (when the cap is positive). */
    ghost predicate Valid()
      reads this
    {
      maxHistory >= 1 ==> forall sid :: sid in sessions ==> |sessions[sid]| <= maxHistory
    }

    function Session(sid: string): seq<TurnNode>
      reads this
    {
      if sid in sessions then sessions[sid] else []
    }

    method AddTurn(sessionId: string, text: string, intent: string, riskScore: real,
                   classification: string, attackType: string, now: string) returns (r: ChainAnalysis)
      requires Valid()
      modifies this
      ensures Valid()
      ensures sessions == old(sessions)[sessionId :=
        Appended(old(Session(sessionId)), maxHistory, text, intent, riskScore, classification, attackType, now)]
      ensures r == AnalyzeChain(Session(sessionId))
    {
      var turns := Appended(Session(sessionId), maxHistory, text, intent, riskScore, classification, attackType, now);
      AppendedBound(Session(sessionId), maxHistory, text, intent, riskScore, classification, attackType, now);
      sessions := sessions[sessionId := turns];
      r := AnalyzeChain(turns);
    }

    /** `get_session_summary`: None for an unknown session, else the counts, extreme and
        mean risk and the current analysis. */
    method GetSessionSummary(sessionId: string) returns (r: Option<Summary>)
      ensures r.None? <==> sessionId !in sessions
      ensures r.Some? ==> var ts := sessions[sessionId]; var a := AnalyzeChain(ts);
        && r.value.sessionId == sessionId && r.value.turnCount == |ts|
        && r.value.escalationDetected == a.escalationDetected
        && r.value.escalationScore == a.escalationScore && r.value.patterns == a.patterns
        && (ts == [] ==> r.value.firstTurn.None? && r.value.lastTurn.None? && r.value.maxRisk == 0.0 && r.value.avgRisk == 0.0)
        && (ts != [] ==>
              r.value.firstTurn == Some(ts[0].timestamp) && r.value.lastTurn == Some(ts[|ts| - 1].timestamp)
              && (forall i :: 0 <= i < |ts| ==> ts[i].riskScore <= r.value.maxRisk)
              && (exists i :: 0 <= i < |ts| && ts[i].riskScore == r.value.maxRisk)
              && r.value.avgRisk == SumRisk(ts) / |ts| as real)
    {
      if sessionId !in sessions {
        return None;
      }
      var ts := sessions[sessionId];
      var a := AnalyzeChain(ts);
      if ts == [] {
        r := Some(Summary(sessionId, 0, None, None, 0.0, 0.0, a.escalationDetected, a.escalationScore, a.patterns));
      } else {
        r := Some(Summary(sessionId, |ts|, Some(ts[0].timestamp), Some(ts[|ts| - 1].timestamp),
                          MaxRisk(ts), SumRisk(ts) / |ts| as real, a.escalationDetected, a.escalationScore, a.patterns));
      }
    }

    method ClearSession(sessionId: string)
      requires Valid()
      modifies this
      ensures Valid()
      ensures sessions == old(sessions) - {sessionId}
    {
      if sessionId in sessions {
        sessions := sessions - {sessionId};
      }
    }
  }
}
