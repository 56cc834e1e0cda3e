/** `discover_cgroup_base`: walk up from the daemon's own cgroup, probing each ancestor for a child dir that
    takes a write, never at or above a session boundary. */
module BaseDiscovery {
  import opened Wrappers

  /** A path by its components below `/`. */
  type Path = seq<string>

  const CGROUP_ROOT: Path := ["sys", "fs", "cgroup"]
  const ROUNDS := 3
  const ATTEMPTS := 5

  /** What one probe of a candidate meets: the probe dir cannot be made, its file cannot be written, or it can. */
  datatype Outcome = MkdirFails | WriteFails | Writes

  /** The environment: what the probe of a round, a candidate and an attempt meets. */
  type Probe = (nat, nat, nat) -> Outcome

  /** The verdict on a candidate: usable, hosting processes (or unwritable), or taking dirs but no writes. */
  datatype Verdict = Found | Leaf | Stuck

  /** How one walk ends: at a base, at a boundary, or in another round. */
  datatype Walk = Base(index: nat) | Boundary | Retry

  predicate StartsWith(s: string, prefix: string) { prefix <= s }

  predicate EndsWith(s: string, suffix: string) {
    |suffix| <= |s| && s[|s| - |suffix|..] == suffix
  }

  predicate IsForbidden(cand: Path) {
    || cand == []
    || var name := cand[|cand| - 1];
       || name == ".."
       || name == "session.slice"
       || name == "user.slice"
       || (StartsWith(name, "user@") && EndsWith(name, ".service"))
       || (StartsWith(name, "user-") && EndsWith(name, ".slice"))
       || cand == CGROUP_ROOT
  }

  /** The candidates, nearest first: the path and all its ancestors up to `/`. */
  function Candidates(own: Path): seq<Path>
    decreases own
  {
    if own == [] then [own] else [own] + Candidates(own[..|own| - 1])
  }

  function Judge(probe: Probe, round: nat, i: nat, attempt: nat): Verdict
    decreases ATTEMPTS - attempt
  {
    if attempt >= ATTEMPTS then Stuck
    else match probe(round, i, attempt)
      case MkdirFails => if attempt == 0 then Leaf else Stuck
      case Writes => Found
      case WriteFails => Judge(probe, round, i, attempt + 1)
  }

  function WalkFrom(cands: seq<Path>, probe: Probe, round: nat, i: nat): Walk
    decreases |cands| - i
  {
    if i >= |cands| then Retry
    else if IsForbidden(cands[i]) then Boundary
    else match Judge(probe, round, i, 0)
      case Found => Base(i)
      case Leaf => WalkFrom(cands, probe, round, i + 1)
      case Stuck => if i == 0 then WalkFrom(cands, probe, round, 1) else Retry
  }

  function RoundsFrom(cands: seq<Path>, probe: Probe, round: nat): Option<Path>
    decreases ROUNDS - round
  {
    if round >= ROUNDS then None
    else match WalkFrom(cands, probe, round, 0)
      case Base(i) => if i < |cands| then Some(cands[i]) else None
      case Boundary => None
      case Retry => RoundsFrom(cands, probe, round + 1)
  }

  method ListCandidates(own: Path) returns (cands: seq<Path>)
    ensures cands == Candidates(own)
  {
    cands := [];
    var c := own;
    while true
      invariant cands + Candidates(c) == Candidates(own)
      decreases |c|
    {
      cands := cands + [c];
      if c == [] {
        break;
      }
      c := c[..|c| - 1];
    }
  }

  /** The nested retry loops. */
  method DiscoverCgroupBase(own: Path, probe: Probe) returns (base: Option<Path>)
    ensures base == RoundsFrom(Candidates(own), probe, 0)
  {
    var cands := ListCandidates(own);
    for round := 0 to ROUNDS
      invariant RoundsFrom(cands, probe, 0) == RoundsFrom(cands, probe, round)
    {
      var i := 0;
      while i < |cands|
        invariant 0 <= i <= |cands|
        invariant WalkFrom(cands, probe, round, 0) == WalkFrom(cands, probe, round, i)
      {
        if IsForbidden(cands[i]) {
          return None;
        }
        var probed := false;
        var attempt := 0;
        while attempt < ATTEMPTS
          invariant 0 <= attempt <= ATTEMPTS
          invariant Judge(probe, round, i, 0) == Judge(probe, round, i, attempt)
          invariant probed == (attempt > 0)
        {
          var outcome := probe(round, i, attempt);
          if outcome == MkdirFails {
            break;
          }
          if outcome == Writes {
            return Some(cands[i]);
          }
          probed := true;
          attempt := attempt + 1;
        }
        if probed && i != 0 {
          break;
        }
        i := i + 1;
      }
    }
    return None;
  }

  // ----- what the walk guarantees -----

  lemma {:induction false} CandidateAt(own: Path, i: nat)
    requires i <= |own|
    ensures |Candidates(own)| == |own| + 1 && Candidates(own)[i] == own[..|own| - i]
    decreases own
  {
    if own == [] {
    } else {
      var parent := own[..|own| - 1];
      CandidateAt(parent, if i == 0 then 0 else i - 1);
      if i == 0 {
        assert own[..|own|] == own;
      } else {
        assert parent[..|parent| - (i - 1)] == own[..|own| - i];
      }
    }
  }

  lemma {:induction false} JudgeMeaning(probe: Probe, round: nat, i: nat, attempt: nat)
    requires attempt <= ATTEMPTS
    ensures Judge(probe, round, i, attempt) == Found <==>
            exists a | attempt <= a < ATTEMPTS ::
              probe(round, i, a) == Writes && forall b | attempt <= b < a :: probe(round, i, b) == WriteFails
    ensures attempt == 0 ==> (Judge(probe, round, i, 0) == Leaf <==> probe(round, i, 0) == MkdirFails)
    decreases ATTEMPTS - attempt
  {
    if attempt < ATTEMPTS && probe(round, i, attempt) == WriteFails {
      JudgeMeaning(probe, round, i, attempt + 1);
      if attempt == 0 {
        NeverLeafLater(probe, round, i, 1);
      }
    }
  }

  lemma {:induction false} NeverLeafLater(probe: Probe, round: nat, i: nat, attempt: nat)
    requires 0 < attempt
    ensures Judge(probe, round, i, attempt) != Leaf
    decreases ATTEMPTS - attempt
  {
    if attempt < ATTEMPTS && probe(round, i, attempt) == WriteFails {
      NeverLeafLater(probe, round, i, attempt + 1);
    }
  }

  /** The walk may pass candidate `j`: not a boundary, and either no dir can be made in it, or it is the daemon's own
      cgroup and takes no write. */
  ghost predicate Passes(cands: seq<Path>, probe: Probe, round: nat, j: nat)
    requires j < |cands|
  {
    !IsForbidden(cands[j]) && (Judge(probe, round, j, 0) == Leaf || (j == 0 && Judge(probe, round, j, 0) == Stuck))
  }

  /** A walk ends at base `k` exactly if it passes every nearer candidate, `k` is no boundary and takes a write. */
  lemma {:induction false} WalkMeaning(cands: seq<Path>, probe: Probe, round: nat, i: nat, k: nat)
    requires i <= k < |cands|
    ensures WalkFrom(cands, probe, round, i) == Base(k) <==>
            && (forall j | i <= j < k :: Passes(cands, probe, round, j))
            && !IsForbidden(cands[k]) && Judge(probe, round, k, 0) == Found
    decreases k - i
  {
    if i < k && Passes(cands, probe, round, i) {
      WalkMeaning(cands, probe, round, i + 1, k);
    } else if i == k && Passes(cands, probe, round, i) {
      WalkStaysAbove(cands, probe, round, i + 1);
    }
  }

  lemma {:induction false} WalkStaysAbove(cands: seq<Path>, probe: Probe, round: nat, i: nat)
    ensures WalkFrom(cands, probe, round, i).Base? ==> i <= WalkFrom(cands, probe, round, i).index < |cands|
    decreases |cands| - i
  {
    if i < |cands| && Passes(cands, probe, round, i) {
      WalkStaysAbove(cands, probe, round, i + 1);
    }
  }

  lemma {:induction false} SomeRound(cands: seq<Path>, probe: Probe, round: nat) returns (r: nat, k: nat)
    requires RoundsFrom(cands, probe, round).Some?
    ensures round <= r < ROUNDS && k < |cands| && WalkFrom(cands, probe, r, 0) == Base(k)
    ensures RoundsFrom(cands, probe, round).value == cands[k]
    decreases ROUNDS - round
  {
    match WalkFrom(cands, probe, round, 0)
    case Base(i) => r, k := round, i;
    case Retry => r, k := SomeRound(cands, probe, round + 1);
  }

  /** A walk leads to another round exactly if, past candidates it may pass, it meets one above the daemon's own that
      takes dirs but no writes (or runs out of candidates, which the forbidden `/` at the end rules out). */
  lemma {:induction false} RetryMeaning(cands: seq<Path>, probe: Probe, round: nat, i: nat)
    requires i <= |cands|
    ensures WalkFrom(cands, probe, round, i) == Retry <==> exists j :: i <= j <= |cands| && Gives(cands, probe, round, i, j)
    decreases |cands| - i
  {
    if i < |cands| && Passes(cands, probe, round, i) {
      var next := i + 1;
      RetryMeaning(cands, probe, round, next);
      if j :| next <= j <= |cands| && Gives(cands, probe, round, next, j) {
        assert Gives(cands, probe, round, i, j);
      }
      if j :| i <= j <= |cands| && Gives(cands, probe, round, i, j) {
        assert j > i;
        assert Gives(cands, probe, round, next, j);
      }
    } else {
      assert Gives(cands, probe, round, i, i) <==> WalkFrom(cands, probe, round, i) == Retry;
      forall j | i < j <= |cands|
        ensures !Gives(cands, probe, round, i, j)
      {
      }
    }
  }

  /** Starting at `i`, the walk passes everything before `j` and gives up there. */
  ghost predicate Gives(cands: seq<Path>, probe: Probe, round: nat, i: nat, j: nat)
    requires i <= j <= |cands|
  {
    && (forall h | i <= h < j :: Passes(cands, probe, round, h))
    && (j == |cands| || (j > 0 && !IsForbidden(cands[j]) && Judge(probe, round, j, 0) == Stuck))
  }

  /** Round `r` ends at candidate `k`, all rounds from `round` up to it having given up. */
  ghost predicate EndsAt(cands: seq<Path>, probe: Probe, round: nat, r: nat, k: nat) {
    && round <= r < ROUNDS && k < |cands| && WalkFrom(cands, probe, r, 0) == Base(k)
    && forall q: nat | round <= q < r :: WalkFrom(cands, probe, q, 0) == Retry
  }

  /** The search finds a base exactly if some round's walk ends at it and every round before led to another. */
  lemma {:induction false} RoundsMeaning(cands: seq<Path>, probe: Probe, round: nat, base: Path)
    ensures RoundsFrom(cands, probe, round) == Some(base) <==>
            exists r: nat, k: nat :: EndsAt(cands, probe, round, r, k) && cands[k] == base
    decreases ROUNDS - round
  {
    if round < ROUNDS {
      WalkStaysAbove(cands, probe, round, 0);
      match WalkFrom(cands, probe, round, 0) {
        case Base(i) =>
          assert EndsAt(cands, probe, round, round, i);
        case Boundary =>
        case Retry =>
          var next := round + 1;
          RoundsMeaning(cands, probe, next, base);
          if r: nat, k: nat :| EndsAt(cands, probe, next, r, k) && cands[k] == base {
            assert EndsAt(cands, probe, round, r, k);
          }
          if r: nat, k: nat :| EndsAt(cands, probe, round, r, k) && cands[k] == base {
            assert EndsAt(cands, probe, next, r, k);
          }
      }
    }
  }

  ghost predicate TakesWrite(probe: Probe, round: nat, i: nat) {
    exists a :: 0 <= a < ATTEMPTS && probe(round, i, a) == Writes
  }

  /** In this round candidate `i` took a write, and every nearer one refused dirs, or was the daemon's own cgroup. */
  ghost predicate Decides(probe: Probe, round: nat, i: nat) {
    TakesWrite(probe, round, i) && forall j :: 0 < j < i ==> probe(round, j, 0) == MkdirFails
  }

  ghost predicate SomeRoundDecides(probe: Probe, i: nat) {
    exists r :: 0 <= r < ROUNDS && Decides(probe, r, i)
  }

  lemma DecidingRound(cands: seq<Path>, probe: Probe, r: nat, k: nat)
    requires k < |cands| && WalkFrom(cands, probe, r, 0) == Base(k)
    ensures Decides(probe, r, k) && forall j | 0 <= j <= k :: !IsForbidden(cands[j])
  {
    WalkMeaning(cands, probe, r, 0, k);
    JudgeMeaning(probe, r, k, 0);
    forall j | 0 <= j < k
      ensures !IsForbidden(cands[j]) && (j > 0 ==> probe(r, j, 0) == MkdirFails)
    {
      assert Passes(cands, probe, r, j);
      JudgeMeaning(probe, r, j, 0);
    }
  }

  lemma PrefixesNest(a: Path, b: Path, own: Path)
    requires a <= own && b <= own
    ensures a <= b || b < a
  {
    if |a| <= |b| {
      assert own[..|b|][..|a|] == own[..|a|];
    } else {
      assert own[..|a|][..|b|] == own[..|b|];
    }
  }

  /** The base is safe and nearest: it is the daemon's cgroup or an ancestor of it, strictly below the cgroup root;
      nothing from the daemon's cgroup up to it is a session boundary; and some round decides for it. */
  lemma BaseIsSafeAndNearest(rel: Path, probe: Probe)
    ensures var own := CGROUP_ROOT + rel;
      var base := RoundsFrom(Candidates(own), probe, 0);
      base.Some? ==>
        && CGROUP_ROOT < base.value <= own
        && (forall d | base.value <= d <= own :: !IsForbidden(d))
        && SomeRoundDecides(probe, |own| - |base.value|)
  {
    var own := CGROUP_ROOT + rel;
    var cands := Candidates(own);
    if RoundsFrom(cands, probe, 0).Some? {
      var r, k := SomeRound(cands, probe, 0);
      var base := RoundsFrom(cands, probe, 0).value;
      CandidateAt(own, 0);
      CandidateAt(own, k);
      DecidingRound(cands, probe, r, k);
      forall d | base <= d <= own
        ensures !IsForbidden(d)
      {
        CandidateAt(own, |own| - |d|);
        assert d == own[..|d|] == cands[|own| - |d|];
      }
      assert own[..|CGROUP_ROOT|] == CGROUP_ROOT;
      assert IsForbidden(CGROUP_ROOT);
      PrefixesNest(base, CGROUP_ROOT, own);
      assert base[..|CGROUP_ROOT|] == own[..|CGROUP_ROOT|] == CGROUP_ROOT;
    }
  }

  /** The retries are for failing writes only: if the first round finds every cgroup up to a boundary unwilling to
      take a dir, the search is over, whatever later rounds would have found. */
  lemma {:induction false} NoRetryPastRefusals(cands: seq<Path>, probe: Probe, b: nat, i: nat)
    requires i <= b < |cands| && IsForbidden(cands[b])
    requires forall j | i <= j < b :: probe(0, j, 0) == MkdirFails
    ensures WalkFrom(cands, probe, 0, i) == Boundary
    ensures i == 0 ==> RoundsFrom(cands, probe, 0) == None
    decreases b - i
  {
    if i < b && !IsForbidden(cands[i]) {
      NoRetryPastRefusals(cands, probe, b, i + 1);
    }
  }
}
