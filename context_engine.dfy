/** Multi-turn conversation context: a per-session ledger of the last N user turns and a
    recency-weighted, amplified and capped cumulative risk with slow-burn bonuses. */
module ContextEngine {
  import opened Util

  /** The module's regular expressions as predicates on text (searched, case-insensitive);
      regex semantics are not modelled. */
  datatype Matchers = Matchers(
    realDbRecord: string -> bool,
    exampleRecord: string -> bool,
    transactionFormat: string -> bool,
    dataStorage: string -> bool,
    savingsAccount: string -> bool,
    privilegeEscalation: string -> bool,
    restrictionProbe: string -> bool,
    personaShift: string -> bool)

  /** The slow-burn checks in priority order with their scores. */
  function SlowBurnTable(m: Matchers): seq<(string -> bool, real)> {
    [(m.realDbRecord, 0.90), (m.exampleRecord, 0.50), (m.transactionFormat, 0.30),
     (m.dataStorage, 0.20), (m.savingsAccount, 0.0), (m.privilegeEscalation, 0.60),
     (m.restrictionProbe, 0.40), (m.personaShift, 0.40)]
  }

  /** `score_message_for_slow_burn` */
  function ScoreSlowBurn(m: Matchers, text: string): (r: real)
    ensures 0.0 <= r <= 0.9
    ensures Blank(text) ==> r == 0.0
  {
    var t := Strip(text);
    if t == [] then 0.0
    else if m.realDbRecord(t) then 0.90
    else if m.exampleRecord(t) then 0.50
    else if m.transactionFormat(t) then 0.30
    else if m.dataStorage(t) then 0.20
    else if m.savingsAccount(t) then 0.0
    else if m.privilegeEscalation(t) then 0.60
    else if m.restrictionProbe(t) then 0.40
    else if m.personaShift(t) then 0.40
    else 0.0
  }

  /** The score of a non-blank message is the score of the first check in the priority
      table that matches its stripped text, 0.0 when none does. */
  lemma SlowBurnFirstMatch(m: Matchers, text: string)
    ensures ScoreSlowBurn(m, text) ==
      if Blank(text) then 0.0 else FirstMatchValue(SlowBurnTable(m), Strip(text), 0.0)
  {
    var tb := SlowBurnTable(m);
    var t := Strip(text);
    assert tb[0] == (m.realDbRecord, 0.90) && tb[1] == (m.exampleRecord, 0.50);
    assert tb[2] == (m.transactionFormat, 0.30) && tb[3] == (m.dataStorage, 0.20);
    assert tb[4] == (m.savingsAccount, 0.0) && tb[5] == (m.privilegeEscalation, 0.60);
    assert tb[6] == (m.restrictionProbe, 0.40) && tb[7] == (m.personaShift, 0.40);
  }

  /** One ledger row. */
  datatype Turn = Turn(ts: string, tenantId: string, userMessage: string, riskScore: real)

  datatype ContextResult = ContextResult(cumulativeRiskScore: real, slowBurnFlags: seq<string>, suspiciousSession: bool)

  /** The newest n rows when n > 0, none otherwise: what survives
      `DELETE ... ORDER BY id DESC LIMIT -1 OFFSET n` (a negative offset counts as 0). */
  function Newest<T>(rows: seq<T>, n: int): (r: seq<T>)
    ensures |r| == (if n <= 0 then 0 else if n < |rows| then n else |rows|)
    ensures r == rows[|rows| - |r|..]
  {
    if n <= 0 then [] else if n >= |rows| then rows else rows[|rows| - n..]
  }

  /** `SELECT ... ORDER BY id DESC LIMIT n`, reversed: a negative limit means no limit. */
  function LastRows<T>(rows: seq<T>, limit: int): (r: seq<T>)
    ensures limit < 0 ==> r == rows
    ensures limit >= 0 ==> |r| == (if limit < |rows| then limit else |rows|)
    ensures r == rows[|rows| - |r|..]
  {
    if limit < 0 then rows else Newest(rows, limit)
  }

  /** The row `record_turn` inserts: a missing timestamp takes the clock reading, a missing
      tenant becomes "default". */
  function NewRow(tenantId: string, userMessage: string, riskScore: real, ts: string, now: string): Turn {
    Turn(if ts == "" then now else ts, if tenantId == "" then "default" else tenantId, userMessage, riskScore)
  }

  function Recorded(rows: seq<Turn>, maxTurns: int, row: Turn): seq<Turn> {
    Newest(rows + [row], maxTurns)
  }

  /** After recording, a session holds its newest min(N, k + 1) rows, ending with the new one. */
  lemma RecordedKeepsNewest(rows: seq<Turn>, maxTurns: int, row: Turn)
    requires maxTurns >= 1
    ensures var r := Recorded(rows, maxTurns, row);
      && |r| == (if |rows| + 1 < maxTurns then |rows| + 1 else maxTurns)
      && r[|r| - 1] == row
      && r[..|r| - 1] == rows[|rows| + 1 - |r|..]
  {
    var r := Recorded(rows, maxTurns, row);
    var all := rows + [row];
    assert r == all[|all| - |r|..];
    assert r[..|r| - 1] == all[|all| - |r|..|all| - 1];
    assert all[..|rows|] == rows;
  }

  // ----- the cumulative score --------------------------------------------------------

  /** `0.7 + 0.03 * i` */
  function RecencyWeight(i: nat): real {
    0.7 + 0.03 * i as real
  }

  /** Sum of risk_i * (0.7 + 0.03 i) over the stored turns. */
  function WeightedSum(turns: seq<Turn>): real {
    if turns == [] then 0.0
    else WeightedSum(turns[..|turns| - 1]) + turns[|turns| - 1].riskScore * RecencyWeight(|turns| - 1)
  }

  function SuspiciousTurns(turns: seq<Turn>): (r: nat)
    ensures r <= |turns|
  {
    if turns == [] then 0 else (if turns[0].riskScore >= 0.3 then 1 else 0) + SuspiciousTurns(turns[1..])
  }

  function Messages(turns: seq<Turn>): (r: seq<string>)
    ensures |r| == |turns| && forall i :: 0 <= i < |turns| ==> r[i] == turns[i].userMessage
  {
    if turns == [] then [] else [turns[0].userMessage] + Messages(turns[1..])
  }

  /** How many texts match. */
  function Hits(texts: seq<string>, p: string -> bool): (r: nat)
    ensures r <= |texts|
  {
    if texts == [] then 0 else (if p(texts[0]) then 1 else 0) + Hits(texts[1..], p)
  }

  /** The weighted total including the current message, which counts only when non-empty. */
  function Total(turns: seq<Turn>, current: string, m: Matchers): real {
    WeightedSum(turns) + (if current != "" then ScoreSlowBurn(m, current) * RecencyWeight(|turns|) else 0.0)
  }

  /** The session amplifier `1 + 0.15 * suspicious_turns` applied to a total. */
  function Amplify(total: real, suspiciousTurns: nat): real {
    total * (1.0 + 0.15 * suspiciousTurns as real)
  }

  function BaseScore(turns: seq<Turn>, current: string, m: Matchers): real {
    Min(1.0, Amplify(Total(turns, current, m), SuspiciousTurns(turns)))
  }

  function Texts(turns: seq<Turn>, current: string): seq<string> {
    Messages(turns) + [current]
  }

  predicate PersonaShift(turns: seq<Turn>, current: string, m: Matchers) {
    Hits(Texts(turns, current), m.personaShift) >= 2
  }

  predicate RestrictionProbing(turns: seq<Turn>, current: string, m: Matchers) {
    Hits(Texts(turns, current), m.restrictionProbe) >= 2
  }

  predicate PrivilegeRequests(turns: seq<Turn>, current: string, m: Matchers) {
    Hits(Texts(turns, current), m.privilegeEscalation) >= 2
  }

  predicate ProbePlusEscalation(turns: seq<Turn>, current: string, m: Matchers) {
    var joined := Join(Texts(turns, current), "\n");
    m.restrictionProbe(joined) && m.privilegeEscalation(joined)
  }

  function Flag(b: bool, name: string): seq<string> {
    if b then [name] else []
  }

  function Bump(b: bool, score: real, bonus: real): real {
    if b then Min(1.0, score + bonus) else score
  }

  /** The flags raised by the four heuristics, in the order they are checked. */
  function Flags(persona: bool, probing: bool, privilege: bool, both: bool): seq<string> {
    Flag(persona, "gradual_persona_shift") + Flag(probing, "repeated_restriction_probing")
      + Flag(privilege, "escalating_privilege_requests") + Flag(both, "probe_plus_escalation")
  }

  /** The score after the four bonuses, each re-capped at 1. */
  function Bonused(base: real, persona: bool, probing: bool, privilege: bool, both: bool): real {
    Bump(both, Bump(privilege, Bump(probing, Bump(persona, base, 0.20), 0.20), 0.25), 0.10)
  }

  /** The result `evaluate_context` computes for a non-blank session from its window of
      stored turns and the current text. */
  function Evaluate(turns: seq<Turn>, current: string, m: Matchers): ContextResult {
    var persona := PersonaShift(turns, current, m);
    var probing := RestrictionProbing(turns, current, m);
    var privilege := PrivilegeRequests(turns, current, m);
    var both := ProbePlusEscalation(turns, current, m);
    var score := Bonused(BaseScore(turns, current, m), persona, probing, privilege, both);
    ContextResult(score, Flags(persona, probing, privilege, both), score >= 0.4)
  }

  /** Re-capping after each bonus is the same as adding all fired bonuses and capping once. */
  lemma BonusedCapsOnce(base: real, persona: bool, probing: bool, privilege: bool, both: bool)
    requires base <= 1.0
    ensures var bonus := (if persona then 0.20 else 0.0) + (if probing then 0.20 else 0.0)
        + (if privilege then 0.25 else 0.0) + (if both then 0.10 else 0.0);
      var r := Bonused(base, persona, probing, privilege, both);
      && r == Min(1.0, base + bonus)
      && base <= r <= 1.0
  {
  }

  /** The cumulative score never exceeds 1, never falls below the amplified base, equals
      the base plus all fired bonuses capped once, and is suspicious exactly from 0.4 on. */
  lemma EvaluateScore(turns: seq<Turn>, current: string, m: Matchers)
    ensures var r := Evaluate(turns, current, m);
      var bonus := (if PersonaShift(turns, current, m) then 0.20 else 0.0)
        + (if RestrictionProbing(turns, current, m) then 0.20 else 0.0)
        + (if PrivilegeRequests(turns, current, m) then 0.25 else 0.0)
        + (if ProbePlusEscalation(turns, current, m) then 0.10 else 0.0);
      && r.cumulativeRiskScore == Min(1.0, BaseScore(turns, current, m) + bonus)
      && r.cumulativeRiskScore <= 1.0
      && r.cumulativeRiskScore >= BaseScore(turns, current, m)
      && (r.suspiciousSession <==> r.cumulativeRiskScore >= 0.4)
  {
    BonusedCapsOnce(BaseScore(turns, current, m), PersonaShift(turns, current, m),
      RestrictionProbing(turns, current, m), PrivilegeRequests(turns, current, m),
      ProbePlusEscalation(turns, current, m));
  }

  function FlagRank(flag: string): nat {
    if flag == "gradual_persona_shift" then 0
    else if flag == "repeated_restriction_probing" then 1
    else if flag == "escalating_privilege_requests" then 2
    else 3
  }

  /** Each flag is present exactly when its heuristic fired. */
  lemma FlagsPresent(persona: bool, probing: bool, privilege: bool, both: bool)
    ensures var f := Flags(persona, probing, privilege, both);
      && ("gradual_persona_shift" in f <==> persona)
      && ("repeated_restriction_probing" in f <==> probing)
      && ("escalating_privilege_requests" in f <==> privilege)
      && ("probe_plus_escalation" in f <==> both)
  {
  }

  /** The flags appear at most once each, in the fixed order persona, probing,
      privilege, probe-plus-escalation. */
  lemma FlagsOrdered(persona: bool, probing: bool, privilege: bool, both: bool)
    ensures var f := Flags(persona, probing, privilege, both);
      && |f| <= 4
      && (forall i, j :: 0 <= i < j < |f| ==> FlagRank(f[i]) < FlagRank(f[j]))
  {
  }

  /** Each flag of `evaluate_context` is raised exactly when its heuristic fires. */
  lemma EvaluateFlags(turns: seq<Turn>, current: string, m: Matchers)
    ensures var f := Evaluate(turns, current, m).slowBurnFlags;
      && ("gradual_persona_shift" in f <==> PersonaShift(turns, current, m))
      && ("repeated_restriction_probing" in f <==> RestrictionProbing(turns, current, m))
      && ("escalating_privilege_requests" in f <==> PrivilegeRequests(turns, current, m))
      && ("probe_plus_escalation" in f <==> ProbePlusEscalation(turns, current, m))
      && |f| <= 4
      && (forall i, j :: 0 <= i < j < |f| ==> FlagRank(f[i]) < FlagRank(f[j]))
  {
    var persona, probing := PersonaShift(turns, current, m), RestrictionProbing(turns, current, m);
    var privilege, both := PrivilegeRequests(turns, current, m), ProbePlusEscalation(turns, current, m);
    FlagsPresent(persona, probing, privilege, both);
    FlagsOrdered(persona, probing, privilege, both);
  }

  /** An empty current message adds nothing to the weighted total. */
  lemma EmptyCurrentAddsNothing(turns: seq<Turn>, m: Matchers)
    ensures Total(turns, "", m) == WeightedSum(turns)
  {
  }

  /** With non-negative stored risks the total is non-negative, so the score lies in [0, 1]. */
  lemma {:induction false} WeightedSumNonNegative(turns: seq<Turn>)
    requires forall i :: 0 <= i < |turns| ==> turns[i].riskScore >= 0.0
    ensures WeightedSum(turns) >= 0.0
  {
    if turns != [] {
      WeightedSumNonNegative(turns[..|turns| - 1]);
      assert turns[|turns| - 1].riskScore * RecencyWeight(|turns| - 1) >= 0.0;
    }
  }

  // ----- the tracker -----------------------------------------------------------------

  class ConversationTracker {
    const maxTurns: int
    /** Rows per stripped session id, oldest first (ascending row id). */
    var sessions: map<string, seq<Turn>>

    constructor (maxTurns: int)
      ensures this.maxTurns == maxTurns && sessions == map[] && Valid()
    {
      this.maxTurns := maxTurns;
      sessions := map[];
    }

    /** No session holds more than max_turns rows (none when max_turns <= 0). */
    ghost predicate Valid()
      reads this
    {
      forall sid :: sid in sessions ==> |sessions[sid]| <= (if maxTurns < 0 then 0 else maxTurns)
    }

    function Rows(sid: string): seq<Turn>
      reads this
    {
      if sid in sessions then sessions[sid] else []
    }

    /** `record_turn`: a blank session id changes nothing; otherwise the row is inserted and
        all but the session's newest max_turns rows are deleted. */
    method RecordTurn(sessionId: string, tenantId: string, userMessage: string, riskScore: real,
                      ts: string, now: string)
      requires Valid()
      modifies this
      ensures Valid()
      ensures Blank(sessionId) ==> sessions == old(sessions)
      ensures !Blank(sessionId) ==> sessions == old(sessions)[Strip(sessionId) :=
        Recorded(old(Rows(Strip(sessionId))), maxTurns, NewRow(tenantId, userMessage, riskScore, ts, now))]
    {
      var sid := Strip(sessionId);
      if sid == [] {
        return;
      }
      var rows := Recorded(Rows(sid), maxTurns, NewRow(tenantId, userMessage, riskScore, ts, now));
      sessions := sessions[sid := rows];
    }

    /** `get_last_turns`: at most `limit` of the session's newest rows, oldest first, and
        none for a blank id; a negative limit means all rows. */
    method GetLastTurns(sessionId: string, limit: int) returns (r: seq<Turn>)
      ensures Blank(sessionId) ==> r == []
      ensures !Blank(sessionId) ==> var rows := Rows(Strip(sessionId));
        && (limit >= 0 ==> |r| == (if limit < |rows| then limit else |rows|))
        && (limit < 0 ==> r == rows)
        && r == rows[|rows| - |r|..]
    {
      var sid := Strip(sessionId);
      if sid == [] {
        return [];
      }
      r := LastRows(Rows(sid), limit);
    }

    /** The recency-weighted accumulation loop of `evaluate_context`. */
    static method WeightedTotal(turns: seq<Turn>) returns (total: real)
      ensures total == WeightedSum(turns)
    {
      total := 0.0;
      var i := 0;
      while i < |turns|
        invariant 0 <= i <= |turns|
        invariant total == WeightedSum(turns[..i])
      {
        assert turns[..i + 1][..i] == turns[..i];
        total := total + turns[i].riskScore * RecencyWeight(i);
        i := i + 1;
      }
      assert turns[..i] == turns;
    }

    /** `evaluate_context` */
    method EvaluateContext(sessionId: string, currentText: string, m: Matchers) returns (r: ContextResult)
      ensures Blank(sessionId) ==> r == ContextResult(0.0, [], false)
      ensures !Blank(sessionId) ==> r == Evaluate(LastRows(Rows(Strip(sessionId)), maxTurns), currentText, m)
    {
      var sid := Strip(sessionId);
      if sid == [] {
        return ContextResult(0.0, [], false);
      }
      StripIdempotent(sessionId);
      var turns := GetLastTurns(sid, maxTurns);
      r := ScoreTurns(turns, currentText, m);
    }

    /** The scoring part of `evaluate_context`, over the session's window of turns. */
    static method ScoreTurns(turns: seq<Turn>, currentText: string, m: Matchers) returns (r: ContextResult)
      ensures r == Evaluate(turns, currentText, m)
    {
      var total := WeightedTotal(turns);
      if currentText != "" {
        total := total + ScoreSlowBurn(m, currentText) * RecencyWeight(|turns|);
      }
      assert total == Total(turns, currentText, m);
      var cumulative := Min(1.0, Amplify(total, SuspiciousTurns(turns)));
      var texts := Messages(turns) + [currentText];
      var joined := Join(texts, "\n");
      var score, flags := ApplyHeuristics(cumulative, Hits(texts, m.personaShift) >= 2,
        Hits(texts, m.restrictionProbe) >= 2, Hits(texts, m.privilegeEscalation) >= 2,
        m.restrictionProbe(joined) && m.privilegeEscalation(joined));
      r := ContextResult(score, flags, score >= 0.4);
    }

    /** The four slow-burn checks of `evaluate_context`, each adding its flag and bonus. */
    static method ApplyHeuristics(base: real, persona: bool, probing: bool, privilege: bool, both: bool)
      returns (score: real, flags: seq<string>)
      ensures score == Bonused(base, persona, probing, privilege, both)
      ensures flags == Flags(persona, probing, privilege, both)
    {
      score := base;
      flags := [];
      if persona {
        flags := flags + ["gradual_persona_shift"];
        score := Min(1.0, score + 0.20);
      }
      if probing {
        flags := flags + ["repeated_restriction_probing"];
        score := Min(1.0, score + 0.20);
      }
      if privilege {
        flags := flags + ["escalating_privilege_requests"];
        score := Min(1.0, score + 0.25);
      }
      if both {
        flags := flags + ["probe_plus_escalation"];
        score := Min(1.0, score + 0.10);
      }
    }
  }
}
