/** Which managed dirs one poll writes, and that it leaves the values of all others as they were. */
module Rewrites {
  import opened Wrappers
  import opened Config
  import opened Cgroupfs
  import opened Enrolment
  import opened Limits
  import opened SelfHealing

  /** The reconcile of `x` writes the limits of `d`: a process to join it, new limits for one there, or a rewrite due. */
  predicate Attempts(w: World, x: Want, d: Dir) {
    w.base.Some? && x.limits.Some? && Target(w.base.value, x.key, x.limits.value) == d
    && !(x.pid in w.enrolled && w.enrolled[x.pid].dir == d && w.enrolled[x.pid].limits == x.limits.value && !w.reasserted)
  }

  predicate Attempted(w: World, wants: seq<Want>, d: Dir)
    decreases wants
  {
    wants != [] && (Attempts(w, wants[0], d) || Attempted(SyncPid(w, wants[0].pid, wants[0].key, wants[0].limits), wants[1..], d))
  }

  ghost predicate LivesIn(w: World, p: Pid, d: Dir) {
    p in w.enrolled && p in w.k.at && w.enrolled[p].dir == d
  }

  // ----- the ground on which a poll's reconciles stand -----

  ghost predicate Ground(w: World, plan: map<Dir, CgroupLimits>, idle: set<Dir>) {
    w.base.Some? && w.k.subtreeCpu && InPlace(w) && Ready(w, plan) && OnlyStuck(w.k, plan, idle)
  }

  lemma PruneGround(w: World, plan: map<Dir, CgroupLimits>, idle: set<Dir>, d: Dir)
    requires Ground(w, plan, idle)
    ensures Ground(Prune(w, d), plan, idle)
    ensures forall p | p in w.k.at :: w.k.at[p] in Prune(w, d).k.dirs && SameFiles(w.k, Prune(w, d).k, w.k.at[p])
  {
    if Removable(w.k, d) {
      forall p | p in w.k.at
        ensures w.k.at[p] != d
      {
        assert p in Procs(w.k, w.k.at[p]);
      }
    }
  }

  lemma MovedOutGround(w: World, plan: map<Dir, CgroupLimits>, idle: set<Dir>, q: Pid)
    requires Ground(w, plan, idle) && q in w.enrolled
    ensures Ground(w.(enrolled := w.enrolled - {q}, k := Move(w.k, q, w.enrolled[q].origin)), plan, idle)
  {
  }

  lemma SavedGround(w: World, plan: map<Dir, CgroupLimits>, idle: set<Dir>)
    requires Ground(w, plan, idle)
    ensures Ground(SaveState(w), plan, idle) && SaveState(w) == w.(k := w.k.(stateFile := SaveState(w).k.stateFile))
  {
  }

  /** Leaving: for those who live in `d` afterwards nothing has changed. */
  lemma ReturnedGround(w: World, plan: map<Dir, CgroupLimits>, idle: set<Dir>, q: Pid)
    requires Ground(w, plan, idle)
    ensures var w' := Returned(w, q);
      && Ground(w', plan, idle) && w'.base == w.base && w'.reasserted == w.reasserted && q !in w'.enrolled
      && forall p, d | LivesIn(w', p, d) :: LivesIn(w, p, d) && w'.enrolled[p] == w.enrolled[p] && SameFiles(w.k, w'.k, d)
  {
    if q in w.enrolled {
      var w1 := w.(enrolled := w.enrolled - {q}, k := Move(w.k, q, w.enrolled[q].origin));
      var w2 := Prune(w1, w.enrolled[q].dir);
      MovedOutGround(w, plan, idle, q);
      PruneGround(w1, plan, idle, w.enrolled[q].dir);
      SavedGround(w2, plan, idle);
      forall p, d | LivesIn(w2, p, d)
        ensures LivesIn(w1, p, d) && w2.enrolled[p] == w1.enrolled[p] && SameFiles(w1.k, w2.k, d)
      {
        assert w1.k.at[p] == d;
      }
    }
  }

  /** Writing the limits of a planned dir. */
  lemma WrittenGround(w: World, plan: map<Dir, CgroupLimits>, idle: set<Dir>, c: Dir)
    requires Ground(w, plan, idle) && c in plan
    ensures var w' := w.(k := Apply(w.k, w.base, c, plan[c]).0);
      && Ground(w', plan, idle) && (c in w.k.dirs ==> Kept(w'.k, c, plan[c]))
      && w'.k == w.k.(files := w'.k.files) && forall d | d != c :: SameFiles(w.k, w'.k, d)
  {
    ApplyMeaning(w.k, w.base, c, plan[c]);
    if c in w.k.dirs {
      ReadyWrites(w, plan, idle, c);
    } else {
      NoDirNoWrite(w, c, plan[c]);
    }
  }

  lemma RewriteGround(w: World, plan: map<Dir, CgroupLimits>, idle: set<Dir>, q: Pid)
    requires Ground(w, plan, idle) && q in w.enrolled && w.enrolled[q].dir in plan
    ensures var c := w.enrolled[q].dir; var w' := Rewrite(w, q, plan[c]);
      && Ground(w', plan, idle) && w'.base == w.base && w'.reasserted == w.reasserted
      && w'.k.at == w.k.at && w'.enrolled == w.enrolled[q := w.enrolled[q].(limits := plan[c])]
      && (forall d | d != c :: SameFiles(w.k, w'.k, d))
      && (if w.enrolled[q].limits != plan[c] || w.reasserted then c in w.k.dirs ==> Kept(w'.k, c, plan[c]) else w' == w)
  {
    var c := w.enrolled[q].dir;
    WrittenGround(w, plan, idle, c);
    var w1 := w.(k := Apply(w.k, w.base, c, plan[c]).0);
    assert w.enrolled[q].limits != plan[c] || w.reasserted ==>
      Rewrite(w, q, plan[c]) == w1.(enrolled := w.enrolled[q := w.enrolled[q].(limits := plan[c])]);
    if !(w.enrolled[q].limits != plan[c] || w.reasserted) {
      assert w.enrolled[q := w.enrolled[q].(limits := plan[c])] == w.enrolled;
    }
  }

  lemma MkdirGround(w: World, plan: map<Dir, CgroupLimits>, idle: set<Dir>, c: Dir)
    requires Ground(w, plan, idle)
    ensures Ground(w.(k := MkdirAll(w.k, c)), plan, idle) && (CanMkdir(w.k, c) ==> c in MkdirAll(w.k, c).dirs)
  {
    assert c == c[..|c|];
  }

  lemma JoinedSteps(w: World, plan: map<Dir, CgroupLimits>, idle: set<Dir>, q: Pid, c: Dir) returns (w2: World)
    requires Ground(w, plan, idle) && c in plan
    ensures Ground(w2, plan, idle) && Kept(w2.k, c, plan[c]) && forall d | d != c :: SameFiles(w.k, w2.k, d)
    ensures w2 == w.(k := w2.k) && w2.k.at == w.k.at && c in w2.k.dirs
    ensures Joined(w, q, c, plan[c]) == w2 || (q in w.k.at && Joined(w, q, c, plan[c]) ==
      SaveState(w2.(k := w2.k.(at := w2.k.at[q := c]),
                    enrolled := w2.enrolled[q := Enrolled(c, OriginFor(w, q), plan[c])],
                    created := w2.created + {c})))
  {
    MkdirGround(w, plan, idle, c);
    var w1 := w.(k := MkdirAll(w.k, c));
    WrittenGround(w1, plan, idle, c);
    w2 := w1.(k := Apply(w1.k, w1.base, c, plan[c]).0);
    forall d | d != c
      ensures SameFiles(w.k, w2.k, d)
    {
      assert SameFiles(w1.k, w2.k, d);
    }
  }

  lemma FilesSame(k: Kernel, k': Kernel)
    requires k.files == k'.files
    ensures forall d :: SameFiles(k, k', d)
  {
  }

  /** A process moved into a dir that is there, and entered. */
  lemma EnteredGround(w: World, plan: map<Dir, CgroupLimits>, idle: set<Dir>, q: Pid, en: Enrolled)
    requires Ground(w, plan, idle) && en.dir in w.k.dirs && q in w.k.at
    ensures var w' := SaveState(w.(k := w.k.(at := w.k.at[q := en.dir]),
                                   enrolled := w.enrolled[q := en],
                                   created := w.created + {en.dir}));
      Ground(w', plan, idle) && w'.k.files == w.k.files
  {
  }

  /** Joining `c`: whoever lives elsewhere is not concerned, and whoever lives in `c` has it written. */
  lemma JoinedGround(w: World, plan: map<Dir, CgroupLimits>, idle: set<Dir>, q: Pid, c: Dir)
    requires Ground(w, plan, idle) && c in plan && q !in w.enrolled
    ensures var w' := Joined(w, q, c, plan[c]);
      && Ground(w', plan, idle) && w'.base == w.base && w'.reasserted == w.reasserted && Kept(w'.k, c, plan[c])
      && (forall d | d != c :: SameFiles(w.k, w'.k, d))
      && (forall p, d | LivesIn(w', p, d) && p != q :: LivesIn(w, p, d) && w'.enrolled[p] == w.enrolled[p])
      && (q in w'.enrolled ==> w'.enrolled[q].dir == c && w'.enrolled[q].limits == plan[c])
  {
    var w2 := JoinedSteps(w, plan, idle, q, c);
    var w' := Joined(w, q, c, plan[c]);
    if w' != w2 {
      EnteredGround(w2, plan, idle, q, Enrolled(c, OriginFor(w, q), plan[c]));
    }
    FilesSame(w2.k, w'.k);
    HoldsSame(w2.k, w'.k, c, plan[c]);
    forall d | d != c
      ensures SameFiles(w.k, w'.k, d)
    {
      assert SameFiles(w.k, w2.k, d) && SameFiles(w2.k, w'.k, d);
    }
  }

  // ----- one reconcile -----

  ghost predicate Fits(w: World, x: Want, plan: map<Dir, CgroupLimits>) {
    w.base.Some? && (x.limits.Some? ==> var c := Target(w.base.value, x.key, x.limits.value); c in plan && plan[c] == x.limits.value)
  }

  /** For each dir: if it was not written, those who live in it lived in it before, under the same entry, and its files
      are the same; if it was, it has the planned values wherever anybody lives in it. */
  ghost predicate DirsAfter(w: World, w': World, plan: map<Dir, CgroupLimits>, d: Dir, written: bool) {
    if written then d in plan && ((exists p :: LivesIn(w', p, d)) ==> Kept(w'.k, d, plan[d]))
    else forall p | LivesIn(w', p, d) :: LivesIn(w, p, d) && w'.enrolled[p] == w.enrolled[p] && SameFiles(w.k, w'.k, d)
  }

  lemma SwitchGround(w: World, plan: map<Dir, CgroupLimits>, idle: set<Dir>, q: Pid, c: Dir, d: Dir)
    requires Ground(w, plan, idle) && c in plan
    ensures var w' := Joined(Returned(w, q), q, c, plan[c]);
      Ground(w', plan, idle) && w'.base == w.base && w'.reasserted == w.reasserted && DirsAfter(w, w', plan, d, c == d)
  {
    ReturnedGround(w, plan, idle, q);
    var w1 := Returned(w, q);
    JoinedGround(w1, plan, idle, q, c);
    var w' := Joined(w1, q, c, plan[c]);
    if c != d {
      forall p | LivesIn(w', p, d)
        ensures LivesIn(w, p, d) && w'.enrolled[p] == w.enrolled[p] && SameFiles(w.k, w'.k, d)
      {
        assert LivesIn(w1, p, d);
        assert SameFiles(w.k, w1.k, d) && SameFiles(w1.k, w'.k, d);
      }
    }
  }

  lemma SyncGround(w: World, plan: map<Dir, CgroupLimits>, idle: set<Dir>, x: Want, d: Dir)
    requires Ground(w, plan, idle) && Fits(w, x, plan)
    ensures var w' := SyncPid(w, x.pid, x.key, x.limits);
      && Ground(w', plan, idle) && w'.base == w.base && w'.reasserted == w.reasserted
      && DirsAfter(w, w', plan, d, Attempts(w, x, d))
  {
    SyncDirect(w, x.pid, x.key, x.limits);
    if x.limits.None? {
      ReturnedGround(w, plan, idle, x.pid);
    } else {
      var c := Target(w.base.value, x.key, x.limits.value);
      if x.pid in w.enrolled && w.enrolled[x.pid].dir == c {
        RewriteGround(w, plan, idle, x.pid);
      } else {
        SwitchGround(w, plan, idle, x.pid, c, d);
      }
    }
  }

  // ----- all reconciles of a poll -----

  lemma {:induction false} SyncAllGround(w: World, wants: seq<Want>, plan: map<Dir, CgroupLimits>, idle: set<Dir>, d: Dir)
    requires Ground(w, plan, idle) && PlanFits(w, wants, plan)
    ensures var w' := SyncAll(w, wants);
      Ground(w', plan, idle) && w'.base == w.base && w'.reasserted == w.reasserted
      && DirsAfter(w, w', plan, d, Attempted(w, wants, d))
    decreases wants
  {
    if wants != [] {
      var x := wants[0];
      assert wants == [x] + wants[1..];
      var w1 := SyncPid(w, x.pid, x.key, x.limits);
      SyncGround(w, plan, idle, x, d);
      SyncAllGround(w1, wants[1..], plan, idle, d);
      TwoAfter(w, w1, SyncAll(w1, wants[1..]), plan, d, Attempts(w, x, d), Attempted(w1, wants[1..], d));
    }
  }

  lemma TwoAfter(w: World, w1: World, w2: World, plan: map<Dir, CgroupLimits>, d: Dir, a: bool, b: bool)
    requires DirsAfter(w, w1, plan, d, a) && DirsAfter(w1, w2, plan, d, b)
    ensures DirsAfter(w, w2, plan, d, a || b)
  {
    if !b {
      forall p | LivesIn(w2, p, d)
        ensures LivesIn(w1, p, d) && w2.enrolled[p] == w1.enrolled[p] && SameFiles(w1.k, w2.k, d)
      {
      }
      if a && exists p :: LivesIn(w2, p, d) {
        HoldsSame(w1.k, w2.k, d, plan[d]);
      }
    }
  }

  /** After a re-assertion everybody who lives in `d` and was looked at has had it written. */
  lemma {:induction false} ReassertedWrites(w: World, wants: seq<Want>, plan: map<Dir, CgroupLimits>, idle: set<Dir>, d: Dir, p: Pid)
    requires Ground(w, plan, idle) && PlanFits(w, wants, plan) && w.reasserted
    requires LivesIn(SyncAll(w, wants), p, d) && exists x | x in wants :: x.pid == p
    ensures Attempted(w, wants, d)
    decreases wants
  {
    var x := wants[0];
    assert wants == [x] + wants[1..];
    var w1 := SyncPid(w, x.pid, x.key, x.limits);
    SyncGround(w, plan, idle, x, d);
    if exists y | y in wants[1..] :: y.pid == p {
      ReassertedWrites(w1, wants[1..], plan, idle, d, p);
    } else if !Attempted(w, wants, d) {
      SyncAllGround(w1, wants[1..], plan, idle, d);
      assert LivesIn(w1, p, d) && x.pid == p;
      NotAttemptedNotThere(w, x, plan, idle, d);
      assert false;
    }
  }

  lemma NotAttemptedNotThere(w: World, x: Want, plan: map<Dir, CgroupLimits>, idle: set<Dir>, d: Dir)
    requires Ground(w, plan, idle) && Fits(w, x, plan) && w.reasserted && !Attempts(w, x, d)
    ensures !LivesIn(SyncPid(w, x.pid, x.key, x.limits), x.pid, d)
  {
    SyncDirect(w, x.pid, x.key, x.limits);
    ReturnedGround(w, plan, idle, x.pid);
    if x.limits.Some? {
      var c := Target(w.base.value, x.key, x.limits.value);
      if !(x.pid in w.enrolled && w.enrolled[x.pid].dir == c) {
        JoinedGround(Returned(w, x.pid), plan, idle, x.pid, c);
      }
    }
  }

  /** Whoever was looked at and lives in a dir has the limits planned for it on record. */
  lemma {:induction false} RecordsPlan(w: World, wants: seq<Want>, plan: map<Dir, CgroupLimits>, idle: set<Dir>, d: Dir, p: Pid)
    requires Ground(w, plan, idle) && PlanFits(w, wants, plan)
    requires LivesIn(SyncAll(w, wants), p, d) && exists x | x in wants :: x.pid == p
    ensures d in plan && SyncAll(w, wants).enrolled[p].limits == plan[d]
    decreases wants
  {
    var x := wants[0];
    assert wants == [x] + wants[1..];
    var w1 := SyncPid(w, x.pid, x.key, x.limits);
    SyncGround(w, plan, idle, x, d);
    if exists y | y in wants[1..] :: y.pid == p {
      RecordsPlan(w1, wants[1..], plan, idle, d, p);
    } else {
      assert x.pid == p;
      OthersKeepEntry(w1, wants[1..], plan, idle, p);
      OneRecords(w, x, plan, idle);
    }
  }

  lemma OneRecords(w: World, x: Want, plan: map<Dir, CgroupLimits>, idle: set<Dir>)
    requires Ground(w, plan, idle) && Fits(w, x, plan)
    ensures var w' := SyncPid(w, x.pid, x.key, x.limits);
      x.pid in w'.enrolled ==> w'.enrolled[x.pid].dir in plan && w'.enrolled[x.pid].limits == plan[w'.enrolled[x.pid].dir]
  {
    SyncDirect(w, x.pid, x.key, x.limits);
    ReturnedGround(w, plan, idle, x.pid);
    if x.limits.Some? {
      var c := Target(w.base.value, x.key, x.limits.value);
      if x.pid in w.enrolled && w.enrolled[x.pid].dir == c {
        RewriteGround(w, plan, idle, x.pid);
      } else {
        JoinedGround(Returned(w, x.pid), plan, idle, x.pid, c);
      }
    }
  }

  lemma {:induction false} OthersKeepEntry(w: World, wants: seq<Want>, plan: map<Dir, CgroupLimits>, idle: set<Dir>, p: Pid)
    requires Ground(w, plan, idle) && PlanFits(w, wants, plan) && forall x | x in wants :: x.pid != p
    ensures p in SyncAll(w, wants).enrolled <==> p in w.enrolled
    ensures p in w.enrolled ==> SyncAll(w, wants).enrolled[p] == w.enrolled[p]
    decreases wants
  {
    if wants != [] {
      var x := wants[0];
      assert wants == [x] + wants[1..];
      SyncGround(w, plan, idle, x, []);
      OtherEntry(w, x, p);
      OthersKeepEntry(SyncPid(w, x.pid, x.key, x.limits), wants[1..], plan, idle, p);
    }
  }

  ghost predicate SameEntry(w: World, w': World, p: Pid) {
    (p in w'.enrolled <==> p in w.enrolled) && (p in w.enrolled ==> w'.enrolled[p] == w.enrolled[p])
  }

  lemma ReturnedOther(w: World, q: Pid, p: Pid)
    requires q != p
    ensures SameEntry(w, Returned(w, q), p)
  {
  }

  lemma JoinedOther(w: World, q: Pid, c: Dir, l: CgroupLimits, p: Pid)
    requires q != p
    ensures SameEntry(w, Joined(w, q, c, l), p)
  {
  }

  lemma OtherEntry(w: World, x: Want, p: Pid)
    requires x.pid != p
    ensures SameEntry(w, SyncPid(w, x.pid, x.key, x.limits), p)
  {
    SyncDirect(w, x.pid, x.key, x.limits);
    ReturnedOther(w, x.pid, p);
    if w.base.Some? && x.limits.Some? {
      var c := Target(w.base.value, x.key, x.limits.value);
      JoinedOther(Returned(w, x.pid), x.pid, c, x.limits.value, p);
    }
  }

  // ----- a whole poll -----

  /** One poll, dir by dir and exactly: it leaves whoever lives in `d` with all the limits of the plan (an idle dir asked
      for a weight apart) if and only if it wrote the dir, or they were all there before. */
  lemma PollHealsDirIff(
    w: World, wants: seq<Want>, plan: map<Dir, CgroupLimits>, critical: set<Pid>, order: seq<Dir>, exited: seq<Pid>, p: Pid)
    requires PollAllowed(w, wants, plan) && Exited(w, exited)
    requires var w' := Poll(w, wants, critical, order, exited); p in w'.enrolled && p in w'.k.at
    ensures var w' := Poll(w, wants, critical, order, exited); var d := w'.enrolled[p].dir;
      && InPlace(w') && d in plan && w'.enrolled[p].limits == plan[d]
      && (Kept(w'.k, d, plan[d]) <==> Attempted(EnsureControllersOf(w), wants, d) || Kept(w.k, d, plan[d]))
  {
    PollDir(w, wants, plan, critical, order, exited, p);
    var w' := Poll(w, wants, critical, order, exited);
    var d := w'.enrolled[p].dir;
    if !Attempted(EnsureControllersOf(w), wants, d) {
      HoldsSame(w.k, w'.k, d, plan[d]);
    }
  }

  lemma PollDir(
    w: World, wants: seq<Want>, plan: map<Dir, CgroupLimits>, critical: set<Pid>, order: seq<Dir>, exited: seq<Pid>, p: Pid)
    requires PollAllowed(w, wants, plan) && Exited(w, exited)
    requires var w' := Poll(w, wants, critical, order, exited); p in w'.enrolled && p in w'.k.at
    ensures var w' := Poll(w, wants, critical, order, exited); var d := w'.enrolled[p].dir;
      && InPlace(w') && w'.k.subtreeCpu && w'.base == w.base
      && d in plan && w'.enrolled[p].limits == plan[d] && (Stuck(w'.k, d, plan[d]) ==> d in InTheWay(w, plan))
      && if Attempted(EnsureControllersOf(w), wants, d) then Kept(w'.k, d, plan[d])
         else w.k.subtreeCpu && LivesIn(w, p, d) && w.enrolled[p] == w'.enrolled[p] && SameFiles(w.k, w'.k, d)
  {
    var w1 := EnsureControllersOf(w);
    var w2 := SyncAll(w1, wants);
    var w' := Poll(w, wants, critical, order, exited);
    var idle := InTheWay(w, plan);
    assert Ground(w1, plan, idle);
    SyncAllGround(w1, wants, plan, idle, []);
    SyncAllEnrolsOnly(w1, wants);
    EndOfPollKeeps(w2, critical, order, exited);
    var d := w'.enrolled[p].dir;
    assert LivesIn(w2, p, d) && w2.k.at[p] == d && SameFiles(w2.k, w'.k, d);
    SyncAllGround(w1, wants, plan, idle, d);
    RecordsPlan(w1, wants, plan, idle, d, p);
    HoldsSame(w2.k, w'.k, d, plan[d]);
    if w1.reasserted {
      ReassertedWrites(w1, wants, plan, idle, d, p);
    }
  }
}
