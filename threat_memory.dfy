/** Threat intelligence memory: known malicious prompts keyed by a content hash, each with
    an embedding row kept in a parallel list, searched by similarity weighted with a linear
    temporal decay, and pruned to the most recently seen records when over capacity. */
module ThreatMemory {
  import opened Util

  /** An embedding row; the embedding model and cosine similarity are parameters. */
  type Embedding = seq<real>

  /** A stored threat; `firstSeen`/`lastSeen` are clock readings in seconds. */
  datatype Threat = Threat(
    id: string,
    text: string,
    attackType: string,
    frequency: nat,
    firstSeen: int,
    lastSeen: int,
    sessions: seq<string>)

  datatype ThreatMatch = ThreatMatch(
    matchedAttackId: Option<string>,
    similarityScore: real,
    historicalFrequency: nat,
    attackType: string,
    firstSeen: Option<int>,
    lastSeen: Option<int>)

  /** `ThreatMatch()` with its defaults. */
  const NoMatch := ThreatMatch(None, 0.0, 0, "NONE", None, None)

  const SecondsPerDay := 86400

  /** `_generate_id`: the first 16 characters of the hex SHA-256 digest of the text. */
  function GenerateId(hexDigest: string): (r: string)
    ensures |hexDigest| >= 16 ==> |r| == 16
    ensures |r| <= |hexDigest| && r == hexDigest[..|r|]
  {
    Take(hexDigest, 16)
  }

  /** `(now - last_seen).days`: whole days, rounded down as `timedelta.days` is. */
  function AgeDays(lastSeen: int, now: int): (r: int)
    ensures r * SecondsPerDay <= now - lastSeen < (r + 1) * SecondsPerDay
  {
    (now - lastSeen) / SecondsPerDay
  }

  /** The decay weight for an age in whole days; a zero `decay_days` with a negative age
      divides by zero, which the caller's handler turns into 1.0. */
  function DecayAt(age: int, decayDays: int): (r: real)
    ensures age >= decayDays ==> r == 0.1
    ensures 0 <= age < decayDays ==> 0.1 < r <= 1.0
    ensures age == 0 < decayDays ==> r == 1.0
  {
    if age >= decayDays then 0.1
    else if decayDays == 0 then 1.0
    else 1.0 - 0.9 * age as real / decayDays as real
  }

  /** `_apply_decay`: `None` stands for a timestamp that does not parse. */
  function Decay(lastSeen: Option<int>, now: int, decayDays: int): (r: real)
    ensures lastSeen.None? ==> r == 1.0
    ensures lastSeen.Some? && lastSeen.value <= now && decayDays > 0 ==> 0.1 <= r <= 1.0
  {
    if lastSeen.None? then 1.0 else DecayAt(AgeDays(lastSeen.value, now), decayDays)
  }

  /** Older is never heavier: the weight falls strictly with age until `decay_days` and
      stays at 0.1 from there on. */
  lemma DecayDecreasing(a: int, b: int, decayDays: int)
    requires 0 <= a < b && decayDays > 0
    ensures DecayAt(b, decayDays) <= DecayAt(a, decayDays)
    ensures DecayAt(b, decayDays) < DecayAt(a, decayDays) <==> a < decayDays
  {
    if b < decayDays {
      var d := decayDays as real;
      assert 0.9 * a as real / d < 0.9 * b as real / d by {
        assert 0.9 * a as real < 0.9 * b as real;
      }
    }
  }

  /** `similarity * decay_weight` for one stored threat. */
  function WeightedScore(t: Threat, e: Embedding, query: Embedding, now: int, decayDays: int,
                         cosine: (Embedding, Embedding) -> real): real
  {
    cosine(query, e) * Decay(Some(t.lastSeen), now, decayDays)
  }

  function MatchOf(t: Threat, score: real): ThreatMatch {
    ThreatMatch(Some(t.id), score, t.frequency, t.attackType, Some(t.firstSeen), Some(t.lastSeen))
  }

  /** The record stored for a first sighting. */
  function NewThreat(id: string, text: string, attackType: string, now: int, sessionId: string): Threat {
    Threat(id, Take(text, 500), attackType, 1, now, now, [sessionId])
  }

  /** A repeat sighting. */
  function Seen(t: Threat, now: int, sessionId: string): Threat {
    t.(frequency := t.frequency + 1, lastSeen := now, sessions := t.sessions + [sessionId])
  }

  predicate UniqueIds(ts: seq<Threat>) {
    forall i, j :: 0 <= i < j < |ts| ==> ts[i].id != ts[j].id
  }

  // ----- pruning ---------------------------------------------------------------------

  /** Record i comes before record j in `sorted(..., key=last_seen, reverse=True)`:
      a later `last_seen`, or the same one and an earlier position (the sort is stable). */
  predicate Above(ts: seq<Threat>, i: nat, j: nat)
    requires i < |ts| && j < |ts|
  {
    ts[i].lastSeen > ts[j].lastSeen || (ts[i].lastSeen == ts[j].lastSeen && i < j)
  }

  predicate Increasing(idx: seq<nat>) {
    forall a, b :: 0 <= a < b < |idx| ==> idx[a] < idx[b]
  }

  predicate Within(idx: seq<nat>, n: nat) {
    forall a :: 0 <= a < |idx| ==> idx[a] < n
  }

  /** Position in `idx` of the record that the sort puts last. */
  function WorstPos(ts: seq<Threat>, idx: seq<nat>): (p: nat)
    requires idx != [] && Increasing(idx) && Within(idx, |ts|)
    ensures p < |idx|
    ensures forall q :: 0 <= q < |idx| && q != p ==> Above(ts, idx[q], idx[p])
  {
    if |idx| == 1 then 0
    else
      var p' := WorstPos(ts, idx[1..]) + 1;
      assert forall q :: 1 <= q < |idx| ==> idx[q] == idx[1..][q - 1];
      if Above(ts, idx[0], idx[p']) then p' else 0
  }

  /** Python's `len(xs[:m])` for a list of length n. */
  function KeepCount(n: nat, m: int): (r: nat)
    ensures r <= n
    ensures m >= 0 ==> r == (if m < n then m else n)
  {
    if m >= 0 then (if m < n then m else n)
    else if n + m > 0 then n + m
    else 0
  }

  lemma RemoveKeepsOrder(idx: seq<nat>, p: nat, n: nat)
    requires Increasing(idx) && Within(idx, n) && p < |idx|
    ensures var rest := idx[..p] + idx[p + 1..];
      Increasing(rest) && Within(rest, n) && |rest| == |idx| - 1
      && (forall a :: 0 <= a < |rest| ==> rest[a] == (if a < p then idx[a] else idx[a + 1]))
  {
    var rest := idx[..p] + idx[p + 1..];
    forall a | 0 <= a < |rest| ensures rest[a] == (if a < p then idx[a] else idx[a + 1]) {
    }
  }

  /** Drops the worst remaining candidate until at most k are left: k of the candidates
      (or all of them), still in increasing order. */
  function Keep(ts: seq<Threat>, idx: seq<nat>, k: nat): (r: seq<nat>)
    requires Increasing(idx) && Within(idx, |ts|)
    ensures |r| == (if |idx| < k then |idx| else k)
    ensures Increasing(r) && Within(r, |ts|)
    ensures forall a :: 0 <= a < |r| ==> r[a] in idx
    decreases |idx|
  {
    if |idx| <= k then idx
    else
      var p := WorstPos(ts, idx);
      RemoveKeepsOrder(idx, p, |ts|);
      var rest := idx[..p] + idx[p + 1..];
      var r := Keep(ts, rest, k);
      assert forall x :: x in rest ==> x in idx;
      r
  }

  /** Every index of r comes before every index of idx missing from r. */
  predicate Beats(ts: seq<Threat>, r: seq<nat>, idx: seq<nat>)
    requires Within(r, |ts|) && Within(idx, |ts|)
  {
    forall a, b :: 0 <= a < |r| && 0 <= b < |idx| && idx[b] !in r ==> Above(ts, r[a], idx[b])
  }

  /** A candidate left after dropping the worst one beats the worst one. */
  lemma BeatsWorst(ts: seq<Threat>, idx: seq<nat>, p: nat, v: nat)
    requires Within(idx, |ts|) && p < |idx|
    requires forall q :: 0 <= q < |idx| && q != p ==> Above(ts, idx[q], idx[p])
    requires v in idx[..p] + idx[p + 1..]
    ensures v < |ts| && Above(ts, v, idx[p])
  {
    var rest := idx[..p] + idx[p + 1..];
    var q :| 0 <= q < |rest| && rest[q] == v;
    if q < p {
      assert rest[q] == idx[q];
    } else {
      assert rest[q] == idx[q + 1];
    }
  }

  /** One step of `KeepTop`: what beats the candidates left after dropping the worst one
      also beats that one. */
  lemma KeepTopStep(ts: seq<Threat>, idx: seq<nat>, p: nat, r: seq<nat>)
    requires Increasing(idx) && Within(idx, |ts|) && p < |idx| && Within(r, |ts|)
    requires forall q :: 0 <= q < |idx| && q != p ==> Above(ts, idx[q], idx[p])
    requires var rest := idx[..p] + idx[p + 1..];
      && Within(rest, |ts|)
      && (forall a :: 0 <= a < |r| ==> r[a] in rest)
      && Beats(ts, r, rest)
    ensures Beats(ts, r, idx)
  {
    RemoveKeepsOrder(idx, p, |ts|);
    var rest := idx[..p] + idx[p + 1..];
    forall x, y | 0 <= x < |r| && 0 <= y < |idx| && idx[y] !in r ensures Above(ts, r[x], idx[y]) {
      if y == p {
        BeatsWorst(ts, idx, p, r[x]);
      } else {
        var yi := if y < p then y else y - 1;
        assert rest[yi] == idx[y];
      }
    }
  }

  /** Every kept candidate comes before every dropped one in the sort order. */
  lemma {:induction false} KeepTop(ts: seq<Threat>, idx: seq<nat>, k: nat)
    requires Increasing(idx) && Within(idx, |ts|)
    ensures Beats(ts, Keep(ts, idx, k), idx)
    decreases |idx|
  {
    if |idx| > k {
      var p := WorstPos(ts, idx);
      RemoveKeepsOrder(idx, p, |ts|);
      var rest := idx[..p] + idx[p + 1..];
      KeepTop(ts, rest, k);
      KeepTopStep(ts, idx, p, Keep(ts, rest, k));
    }
  }

  /** The indices `_prune_old_threats` keeps. */
  function PruneIndices(ts: seq<Threat>, maxThreats: int): (r: seq<nat>)
    ensures |r| == KeepCount(|ts|, maxThreats)
    ensures Increasing(r) && Within(r, |ts|)
  {
    Keep(ts, Range(|ts|), KeepCount(|ts|, maxThreats))
  }

  /** `range(n)` */
  function Range(n: nat): (r: seq<nat>)
    ensures |r| == n && forall i :: 0 <= i < n ==> r[i] == i
    ensures Increasing(r) && Within(r, n)
  {
    seq(n, i => i)
  }

  /** Pruning keeps exactly `len(threats[:max_threats])` records, in their original order,
      and every kept record is at least as recent as every dropped one (a dropped record
      with the same `last_seen` sits later in the list). */
  lemma PruneKeepsNewest(ts: seq<Threat>, maxThreats: int)
    ensures var keep := PruneIndices(ts, maxThreats);
      forall a, j :: 0 <= a < |keep| && 0 <= j < |ts| && j !in keep ==> Above(ts, keep[a], j)
  {
    var all := Range(|ts|);
    KeepTop(ts, all, KeepCount(|ts|, maxThreats));
    var keep := PruneIndices(ts, maxThreats);
    assert Beats(ts, keep, all);
    forall a, j | 0 <= a < |keep| && 0 <= j < |ts| && j !in keep ensures Above(ts, keep[a], j) {
      assert all[j] == j;
    }
  }

  /** `xs[keep_indices]` */
  function Select<T>(xs: seq<T>, keep: seq<nat>): (r: seq<T>)
    requires Within(keep, |xs|)
    ensures |r| == |keep| && forall a :: 0 <= a < |keep| ==> r[a] == xs[keep[a]]
  {
    seq(|keep|, a requires 0 <= a < |keep| => xs[keep[a]])
  }

  /** Selecting by increasing indices keeps ids distinct and every record's own fields. */
  lemma SelectKeepsUnique(ts: seq<Threat>, keep: seq<nat>)
    requires UniqueIds(ts) && Increasing(keep) && Within(keep, |ts|)
    ensures UniqueIds(Select(ts, keep))
  {
    var r := Select(ts, keep);
    forall i, j | 0 <= i < j < |r| ensures r[i].id != r[j].id {
      assert r[i] == ts[keep[i]] && r[j] == ts[keep[j]] && keep[i] < keep[j];
    }
  }

  // ----- statistics ------------------------------------------------------------------

  function TotalAttacks(ts: seq<Threat>): nat {
    if ts == [] then 0 else ts[0].frequency + TotalAttacks(ts[1..])
  }

  /** Sum of the frequencies of the records of one attack type. */
  function TypeTotal(ts: seq<Threat>, attackType: string): (r: nat)
    ensures r <= TotalAttacks(ts)
  {
    if ts == [] then 0
    else (if ts[0].attackType == attackType then ts[0].frequency else 0) + TypeTotal(ts[1..], attackType)
  }

  function Types(ts: seq<Threat>): set<string> {
    set i | 0 <= i < |ts| :: ts[i].attackType
  }

  /** Every listed type has a positive total when every record was seen at least once. */
  lemma {:induction false} TypeTotalPositive(ts: seq<Threat>, attackType: string)
    requires forall i :: 0 <= i < |ts| ==> ts[i].frequency >= 1
    ensures TypeTotal(ts, attackType) > 0 <==> attackType in Types(ts)
  {
    if ts != [] {
      TypeTotalPositive(ts[1..], attackType);
      assert Types(ts) == {ts[0].attackType} + Types(ts[1..]) by {
        forall x | x in Types(ts) ensures x in {ts[0].attackType} + Types(ts[1..]) {
          var i :| 0 <= i < |ts| && ts[i].attackType == x;
          if i > 0 { assert ts[1..][i - 1] == ts[i]; }
        }
        forall x | x in Types(ts[1..]) ensures x in Types(ts) {
          var i :| 0 <= i < |ts| - 1 && ts[1..][i].attackType == x;
          assert ts[i + 1].attackType == x;
        }
      }
    }
  }

  function OldestFirstSeen(ts: seq<Threat>): (r: int)
    requires ts != []
    ensures forall i :: 0 <= i < |ts| ==> r <= ts[i].firstSeen
    ensures exists i :: 0 <= i < |ts| && ts[i].firstSeen == r
  {
    if |ts| == 1 then ts[0].firstSeen
    else
      var rest := OldestFirstSeen(ts[1..]);
      assert forall i :: 1 <= i < |ts| ==> ts[i] == ts[1..][i - 1];
      if ts[0].firstSeen <= rest then ts[0].firstSeen else rest
  }

  function NewestLastSeen(ts: seq<Threat>): (r: int)
    requires ts != []
    ensures forall i :: 0 <= i < |ts| ==> ts[i].lastSeen <= r
    ensures exists i :: 0 <= i < |ts| && ts[i].lastSeen == r
  {
    if |ts| == 1 then ts[0].lastSeen
    else
      var rest := NewestLastSeen(ts[1..]);
      assert forall i :: 1 <= i < |ts| ==> ts[i] == ts[1..][i - 1];
      if ts[0].lastSeen >= rest then ts[0].lastSeen else rest
  }

  datatype Stats = Stats(
    totalThreats: nat,
    totalAttacks: nat,
    attackTypes: map<string, nat>,
    oldestThreat: Option<int>,
    newestThreat: Option<int>)

  /** The stores after `record_attack` of `text`, from `oldT`/`oldE` to `newT`/`newE`
      with answer `r`: "no_model" and no change without a model; a repeat sighting bumps
      the record with the text's id; an embedding failure answers "error" and changes
      nothing; a first sighting appends the record and its row, then prunes both lists
      by the same kept indices when over capacity. */
  ghost predicate Recorded(oldT: seq<Threat>, oldE: seq<Embedding>, newT: seq<Threat>, newE: seq<Embedding>,
                           r: string, hasModel: bool, maxThreats: int, text: string, attackType: string,
                           sessionId: string, now: int, sha256Hex: string -> string,
                           encode: string -> Option<Embedding>)
  {
    && (!hasModel ==> r == "no_model" && newT == oldT && newE == oldE)
    && (hasModel ==>
        var id := GenerateId(sha256Hex(text));
        if exists i :: 0 <= i < |oldT| && oldT[i].id == id then
          && r == id && newE == oldE && |newT| == |oldT|
          && forall i :: 0 <= i < |newT| ==>
               newT[i] == (if oldT[i].id == id then Seen(oldT[i], now, sessionId) else oldT[i])
        else if encode(text).None? then
          r == "error" && newT == oldT && newE == oldE
        else
          var grown := oldT + [NewThreat(id, text, attackType, now, sessionId)];
          var rows := oldE + [encode(text).value];
          && r == id
          && (|grown| <= maxThreats ==> newT == grown && newE == rows)
          && (|grown| > maxThreats ==>
                && |rows| == |grown|
                && newT == Select(grown, PruneIndices(grown, maxThreats))
                && newE == Select(rows, PruneIndices(grown, maxThreats))))
  }

  // ----- the store -------------------------------------------------------------------

  class ThreatMemory {
    const similarityThreshold: real
    const riskBoost: real
    const decayDays: int
    const maxThreats: int
    /** Whether the embedding model loaded. */
    const hasModel: bool
    var threats: seq<Threat>
    /** Row i embeds `threats[i]`; the empty list stands for `None`. */
    var embeddings: seq<Embedding>

    constructor (similarityThreshold: real, riskBoost: real, decayDays: int, maxThreats: int, hasModel: bool)
      ensures this.similarityThreshold == similarityThreshold && this.riskBoost == riskBoost
      ensures this.decayDays == decayDays && this.maxThreats == maxThreats && this.hasModel == hasModel
      ensures threats == [] && embeddings == [] && Valid()
    {
      this.similarityThreshold := similarityThreshold;
      this.riskBoost := riskBoost;
      this.decayDays := decayDays;
      this.maxThreats := maxThreats;
      this.hasModel := hasModel;
      threats := [];
      embeddings := [];
    }

    /** The two lists stay index-aligned, ids are distinct, every record was seen at least
        once by at least one session, and a non-negative cap is respected. */
    ghost predicate Valid()
      reads this
    {
      && |threats| == |embeddings|
      && UniqueIds(threats)
      && (forall i :: 0 <= i < |threats| ==> threats[i].frequency >= 1 && threats[i].sessions != [])
      && (maxThreats >= 0 ==> |threats| <= maxThreats)
    }

    function Score(j: nat, query: Embedding, now: int, cosine: (Embedding, Embedding) -> real): real
      reads this
      requires j < |threats| <= |embeddings|
    {
      WeightedScore(threats[j], embeddings[j], query, now, decayDays, cosine)
    }

    /** `search`: the first record with the greatest positive weighted score, reported only
        when that score reaches the threshold; an empty match otherwise, with no model, an
        empty store or an embedding failure. */
    method Search(text: string, now: int, encode: string -> Option<Embedding>,
                  cosine: (Embedding, Embedding) -> real) returns (r: ThreatMatch)
      requires Valid()
      ensures !hasModel || threats == [] || encode(text).None? ==> r == NoMatch
      ensures r.matchedAttackId.None? ==> r == NoMatch
      ensures hasModel && threats != [] && encode(text).Some? ==>
        var q := encode(text).value;
        && (r.matchedAttackId.Some? <==>
              exists j :: 0 <= j < |threats| && Score(j, q, now, cosine) > 0.0
                          && Score(j, q, now, cosine) >= similarityThreshold)
        && (r.matchedAttackId.Some? ==>
              exists i :: 0 <= i < |threats| && r == MatchOf(threats[i], Score(i, q, now, cosine))
                && (forall j :: 0 <= j < |threats| ==> Score(j, q, now, cosine) <= Score(i, q, now, cosine))
                && (forall j :: 0 <= j < i ==> Score(j, q, now, cosine) < Score(i, q, now, cosine)))
    {
      if !hasModel || threats == [] || embeddings == [] {
        return NoMatch;
      }
      var encoded := encode(text);
      if encoded.None? {
        return NoMatch;
      }
      var q := encoded.value;
      var best, bestScore := BestRecord(q, now, cosine);
      if best.Some? && bestScore >= similarityThreshold {
        r := MatchOf(threats[best.value], bestScore);
      } else {
        r := NoMatch;
      }
    }

    /** The loop of `search`: the first record with the greatest positive weighted score,
        if any record scores above zero. */
    method BestRecord(q: Embedding, now: int, cosine: (Embedding, Embedding) -> real)
      returns (best: Option<nat>, bestScore: real)
      requires |threats| == |embeddings|
      ensures best.None? ==> bestScore == 0.0 && forall j :: 0 <= j < |threats| ==> Score(j, q, now, cosine) <= 0.0
      ensures best.Some? ==>
        && best.value < |threats| && bestScore == Score(best.value, q, now, cosine) && bestScore > 0.0
        && (forall j :: 0 <= j < |threats| ==> Score(j, q, now, cosine) <= bestScore)
        && (forall j :: 0 <= j < best.value ==> Score(j, q, now, cosine) < bestScore)
    {
      best := None;
      bestScore := 0.0;
      var i := 0;
      while i < |threats|
        invariant 0 <= i <= |threats|
        invariant best.None? ==> bestScore == 0.0 && forall j :: 0 <= j < i ==> Score(j, q, now, cosine) <= 0.0
        invariant best.Some? ==>
          && best.value < i && bestScore == Score(best.value, q, now, cosine) && bestScore > 0.0
          && (forall j :: 0 <= j < i ==> Score(j, q, now, cosine) <= bestScore)
          && (forall j :: 0 <= j < best.value ==> Score(j, q, now, cosine) < bestScore)
      {
        var weighted := cosine(q, embeddings[i]) * Decay(Some(threats[i].lastSeen), now, decayDays);
        if weighted > bestScore {
          bestScore := weighted;
          best := Some(i);
        }
        i := i + 1;
      }
    }

    /** The loop that looks for an existing record with this id. */
    method FindId(id: string) returns (r: Option<nat>)
      ensures r.Some? ==> r.value < |threats| && threats[r.value].id == id
      ensures r.Some? ==> forall j :: 0 <= j < r.value ==> threats[j].id != id
      ensures r.None? ==> forall j :: 0 <= j < |threats| ==> threats[j].id != id
    {
      var i := 0;
      while i < |threats|
        invariant 0 <= i <= |threats|
        invariant forall j :: 0 <= j < i ==> threats[j].id != id
      {
        if threats[i].id == id {
          return Some(i);
        }
        i := i + 1;
      }
      return None;
    }

    /** `_prune_old_threats`: both lists are re-selected by the same kept indices. */
    method PruneOldThreats()
      requires |threats| == |embeddings|
      modifies this
      ensures threats == Select(old(threats), PruneIndices(old(threats), maxThreats))
      ensures embeddings == Select(old(embeddings), PruneIndices(old(threats), maxThreats))
    {
      var keep := PruneIndices(threats, maxThreats);
      PruneKeepsNewest(threats, maxThreats);
      threats := Select(threats, keep);
      embeddings := Select(embeddings, keep);
    }

    /** `record_attack`: "no_model" without a model; a repeat sighting bumps the existing
        record; a first sighting appends a record and its embedding row, then prunes when
        over capacity; an embedding failure answers "error" and changes nothing. */
    method RecordAttack(text: string, attackType: string, sessionId: string, now: int,
                        sha256Hex: string -> string, encode: string -> Option<Embedding>) returns (r: string)
      requires Valid()
      modifies this
      ensures Valid()
      ensures Recorded(old(threats), old(embeddings), threats, embeddings, r, hasModel, maxThreats,
                       text, attackType, sessionId, now, sha256Hex, encode)
    {
      if !hasModel {
        return "no_model";
      }
      var id := GenerateId(sha256Hex(text));
      var existing := FindId(id);
      if existing.Some? {
        Bump(existing.value, now, sessionId);
        return id;
      }
      var encoded := encode(text);
      if encoded.None? {
        return "error";
      }
      Append(NewThreat(id, text, attackType, now, sessionId), encoded.value);
      r := id;
    }

    /** A repeat sighting of record k, the only record with its id. */
    method Bump(k: nat, now: int, sessionId: string)
      requires Valid() && k < |threats|
      modifies this
      ensures Valid() && embeddings == old(embeddings) && |threats| == |old(threats)|
      ensures forall i :: 0 <= i < |threats| ==>
        threats[i] == (if old(threats)[i].id == old(threats)[k].id then Seen(old(threats)[i], now, sessionId)
                       else old(threats)[i])
    {
      threats := threats[k := Seen(threats[k], now, sessionId)];
    }

    /** A first sighting: the record and its embedding row are appended, then both lists
        are pruned together when over capacity. */
    method Append(threat: Threat, row: Embedding)
      requires Valid() && threat.frequency >= 1 && threat.sessions != []
      requires forall i :: 0 <= i < |threats| ==> threats[i].id != threat.id
      modifies this
      ensures Valid()
      ensures var grown := old(threats) + [threat];
        var rows := old(embeddings) + [row];
        && (|grown| <= maxThreats ==> threats == grown && embeddings == rows)
        && (|grown| > maxThreats ==>
              threats == Select(grown, PruneIndices(grown, maxThreats))
              && embeddings == Select(rows, PruneIndices(grown, maxThreats)))
    {
      threats := threats + [threat];
      embeddings := embeddings + [row];
      if |threats| > maxThreats {
        ghost var grown := threats;
        PruneOldThreats();
        SelectKeepsUnique(grown, PruneIndices(grown, maxThreats));
      }
    }

    /** `get_stats` */
    method GetStats() returns (r: Stats)
      requires Valid()
      ensures r.totalThreats == |threats| && r.totalAttacks == TotalAttacks(threats)
      ensures r.attackTypes.Keys == Types(threats)
      ensures forall t :: t in r.attackTypes ==> r.attackTypes[t] == TypeTotal(threats, t) && r.attackTypes[t] > 0
      ensures threats == [] <==> r.oldestThreat.None? && r.newestThreat.None?
      ensures threats != [] ==> r.oldestThreat == Some(OldestFirstSeen(threats)) && r.newestThreat == Some(NewestLastSeen(threats))
    {
      if threats == [] {
        return Stats(0, 0, map[], None, None);
      }
      var counts := TypeCounts(threats);
      forall t | t in counts ensures counts[t] > 0 {
        TypeTotalPositive(threats, t);
      }
      r := Stats(|threats|, TotalAttacks(threats), counts, Some(OldestFirstSeen(threats)), Some(NewestLastSeen(threats)));
    }
  }

  /** The per-type totals loop of `get_stats`. */
  method TypeCounts(ts: seq<Threat>) returns (counts: map<string, nat>)
    ensures counts.Keys == Types(ts)
    ensures forall t :: t in counts ==> counts[t] == TypeTotal(ts, t)
  {
    counts := map[];
    var i := 0;
    while i < |ts|
      invariant 0 <= i <= |ts|
      invariant counts.Keys == Types(ts[..i])
      invariant forall t :: t in counts ==> counts[t] == TypeTotal(ts[..i], t)
    {
      var t := ts[i];
      TypeTotalSnoc(ts[..i], t);
      TypesSnoc(ts[..i], t);
      if t.attackType !in counts {
        TypeTotalZero(ts[..i], t.attackType);
      }
      assert ts[..i + 1] == ts[..i] + [t];
      counts := counts[t.attackType := (if t.attackType in counts then counts[t.attackType] else 0) + t.frequency];
      i := i + 1;
    }
    assert ts[..i] == ts;
  }

  lemma {:induction false} TypeTotalSnoc(ts: seq<Threat>, t: Threat)
    ensures forall x :: TypeTotal(ts + [t], x) == TypeTotal(ts, x) + (if t.attackType == x then t.frequency else 0)
  {
    if ts != [] {
      TypeTotalSnoc(ts[1..], t);
      assert (ts + [t])[1..] == ts[1..] + [t];
    } else {
      assert ([t])[1..] == [];
    }
  }

  lemma {:induction false} TypeTotalZero(ts: seq<Threat>, attackType: string)
    requires attackType !in Types(ts)
    ensures TypeTotal(ts, attackType) == 0
  {
    if ts != [] {
      assert ts[0].attackType in Types(ts);
      assert Types(ts[1..]) <= Types(ts) by {
        forall x | x in Types(ts[1..]) ensures x in Types(ts) {
          var i :| 0 <= i < |ts| - 1 && ts[1..][i].attackType == x;
          assert ts[i + 1].attackType == x;
        }
      }
      TypeTotalZero(ts[1..], attackType);
    }
  }

  lemma TypesSnoc(ts: seq<Threat>, t: Threat)
    ensures Types(ts + [t]) == Types(ts) + {t.attackType}
  {
    var s := ts + [t];
    forall x | x in Types(s) ensures x in Types(ts) + {t.attackType} {
      var i :| 0 <= i < |s| && s[i].attackType == x;
      if i < |ts| { assert ts[i] == s[i]; }
    }
    forall x | x in Types(ts) ensures x in Types(s) {
      var i :| 0 <= i < |ts| && ts[i].attackType == x;
      assert s[i] == ts[i];
    }
    assert s[|ts|] == t;
  }
}
