/** The limits over whole polls.  systemd can drop the `cpu` controller of the base at any time, which throws
    away every cpu value below it; the daemon rewrites limits only when a rule changes, or when it finds at the
    start of a poll that `cpu` had gone. */
module SelfHealing {
  import opened Wrappers
  import opened Config
  import opened Cgroupfs
  import opened Enrolment
  import opened Limits
  import opened Sweeping

  /** What the poll loop asks for one process of the table. */
  datatype Want = Want(pid: Pid, key: string, limits: Option<CgroupLimits>)

  function SyncAll(w: World, wants: seq<Want>): World
    decreases wants
  {
    if wants == [] then w else SyncAll(SyncPid(w, wants[0].pid, wants[0].key, wants[0].limits), wants[1..])
  }

  function ForgetAll(w: World, exited: seq<Pid>): World
    decreases exited
  {
    if exited == [] then w else ForgetAll(Forget(w, exited[0]), exited[1..])
  }

  /** One poll: assert the controllers, reconcile every process, sweep, clear the flag, forget the exited. */
  function Poll(w: World, wants: seq<Want>, critical: set<Pid>, order: seq<Dir>, exited: seq<Pid>): World {
    ForgetAll(Sweep(SyncAll(EnsureControllersOf(w), wants), critical, order).(reasserted := false), exited)
  }

  /** Live enrolled processes are in their recorded dirs, which exist. */
  ghost predicate InPlace(w: World) {
    && (forall p | p in w.k.at :: w.k.at[p] in w.k.dirs)
    && forall p | p in w.enrolled && p in w.k.at :: w.k.at[p] == w.enrolled[p].dir
  }

  /** The dir holds everything these limits ask for, unless it is idle and they ask for a weight. */
  ghost predicate Kept(k: Kernel, d: Dir, l: CgroupLimits) {
    Stuck(k, d, l) || Holds(k, d, l)
  }

  /** So does the dir of every live enrolled process, for its recorded limits. */
  ghost predicate Held(w: World) {
    forall p | p in w.enrolled && p in w.k.at :: Kept(w.k, w.enrolled[p].dir, w.enrolled[p].limits)
  }

  /** One set of limits per managed dir. */
  ghost predicate PlanFits(w: World, wants: seq<Want>, plan: map<Dir, CgroupLimits>) {
    w.base.Some? && forall x | x in wants && x.limits.Some? ::
      var d := Target(w.base.value, x.key, x.limits.value); d in plan && plan[d] == x.limits.value
  }

  /** Nothing but a missing cpu controller, a missing dir or an idle one stands in the way of writing the planned
      limits: sizes are well formed and the files are not denied. */
  ghost predicate Ready(w: World, plan: map<Dir, CgroupLimits>) {
    forall d | d in plan ::
      && d !in w.k.deny.mkdirs
      && forall i | 0 <= i < |Requests(plan[d])| ::
           Requests(plan[d])[i].Put? && (d, Requests(plan[d])[i].file) !in w.k.deny.writes
  }

  ghost predicate SameFiles(k: Kernel, k': Kernel, d: Dir) {
    forall f :: ((d, f) in k.files <==> (d, f) in k'.files) && ((d, f) in k.files ==> k'.files[(d, f)] == k.files[(d, f)])
  }

  /** Only dirs of `idle` are in the way of a planned weight. */
  ghost predicate OnlyStuck(k: Kernel, plan: map<Dir, CgroupLimits>, idle: set<Dir>) {
    forall d | d in plan && Stuck(k, d, plan[d]) :: d in idle
  }

  /** In the course of a poll: processed pids are kept to the plan; so are the others whose recorded limits are the
      planned ones, unless a rewrite is due anyway; and no further dir has got in the way. */
  ghost predicate Midway(w: World, plan: map<Dir, CgroupLimits>, idle: set<Dir>, done: set<Pid>) {
    && w.base.Some? && w.k.subtreeCpu && InPlace(w) && Ready(w, plan) && OnlyStuck(w.k, plan, idle)
    && (forall p | p in w.enrolled && p in w.k.at && p in done ::
          var en := w.enrolled[p]; en.dir in plan && en.limits == plan[en.dir] && Kept(w.k, en.dir, en.limits))
    && (forall p | p in w.enrolled && p in w.k.at && p !in done && !w.reasserted ::
          var en := w.enrolled[p]; en.dir in plan && en.limits == plan[en.dir] ==> Kept(w.k, en.dir, en.limits))
  }

  lemma HoldsSame(k: Kernel, k': Kernel, d: Dir, l: CgroupLimits)
    requires SameFiles(k, k', d)
    ensures (Holds(k, d, l) <==> Holds(k', d, l)) && (Kept(k, d, l) <==> Kept(k', d, l))
  {
  }

  /** Writing the plan of one dir: it fails only where a weight meets an idle dir, and makes no dir idle that is
      planned to have a weight. */
  lemma ReadyWrites(w: World, plan: map<Dir, CgroupLimits>, idle: set<Dir>, d: Dir)
    requires Ready(w, plan) && OnlyStuck(w.k, plan, idle) && w.k.subtreeCpu && d in plan && d in w.k.dirs
    ensures var (k, ok) := Apply(w.k, w.base, d, plan[d]);
      && (ok <==> !Stuck(w.k, d, plan[d])) && (ok ==> Holds(k, d, plan[d])) && Kept(k, d, plan[d])
      && OnlyFilesOf(w.k, k, d) && Ready(w.(k := k), plan) && OnlyStuck(k, plan, idle)
  {
    var l := plan[d];
    var k := Apply(w.k, w.base, d, l).0;
    assert Willing(w.k, w.base, d, l);
    WillingAppliesIff(w.k, w.base, d, l);
    ApplyMeaning(w.k, w.base, d, l);
    WritesKeepIdle(w.k, w.base, d, l);
    forall c | c in plan && Stuck(k, c, plan[c])
      ensures Stuck(w.k, c, plan[c])
    {
    }
  }

  /** Limits that ask for a weight leave the idle flag of their dir as it was, and those of other dirs too. */
  lemma WritesKeepIdle(k: Kernel, base: Option<Dir>, d: Dir, l: CgroupLimits)
    ensures var k' := Apply(k, base, d, l).0;
      && (l.cpuIdle.None? ==> (IsIdle(k', d) <==> IsIdle(k, d)))
      && forall c | c != d :: IsIdle(k', c) <==> IsIdle(k, c)
  {
    ApplyMeaning(k, base, d, l);
    if l.cpuIdle.None? {
      IdleNotAsked(l);
      KeepsFile(k, base, d, Requests(l), CpuIdle);
    }
  }

  lemma PruneMidway(w: World, plan: map<Dir, CgroupLimits>, idle: set<Dir>, done: set<Pid>, d: Dir)
    requires Midway(w, plan, idle, done)
    ensures Midway(Prune(w, d), plan, idle, done)
  {
    if Removable(w.k, d) {
      forall p | p in w.k.at
        ensures w.k.at[p] != d && SameFiles(w.k, Prune(w, d).k, w.k.at[p])
      {
        assert p !in Procs(w.k, d);
      }
      forall p | p in w.enrolled && p in w.k.at
        ensures Kept(Prune(w, d).k, w.enrolled[p].dir, w.enrolled[p].limits) <==> Kept(w.k, w.enrolled[p].dir, w.enrolled[p].limits)
      {
        HoldsSame(w.k, Prune(w, d).k, w.enrolled[p].dir, w.enrolled[p].limits);
      }
    }
  }

  lemma SaveMidway(w: World, plan: map<Dir, CgroupLimits>, idle: set<Dir>, done: set<Pid>)
    requires Midway(w, plan, idle, done)
    ensures Midway(SaveState(w), plan, idle, done)
  {
  }

  lemma ReturnedMidway(w: World, plan: map<Dir, CgroupLimits>, idle: set<Dir>, done: set<Pid>, p: Pid)
    requires Midway(w, plan, idle, done)
    ensures Midway(Returned(w, p), plan, idle, done + {p}) && p !in Returned(w, p).enrolled
  {
    if p in w.enrolled {
      var w1 := w.(enrolled := w.enrolled - {p}, k := Move(w.k, p, w.enrolled[p].origin));
      assert Midway(w1, plan, idle, done + {p});
      PruneMidway(w1, plan, idle, done + {p}, w.enrolled[p].dir);
      SaveMidway(Prune(w1, w.enrolled[p].dir), plan, idle, done + {p});
    }
  }

  lemma WrittenMidway(w: World, plan: map<Dir, CgroupLimits>, idle: set<Dir>, done: set<Pid>, d: Dir)
    requires Midway(w, plan, idle, done) && d in plan && d in w.k.dirs
    ensures Midway(w.(k := Apply(w.k, w.base, d, plan[d]).0), plan, idle, done)
  {
    ReadyWrites(w, plan, idle, d);
    var k := Apply(w.k, w.base, d, plan[d]).0;
    forall p | p in w.enrolled && p in w.k.at && w.enrolled[p].dir != d
      ensures Kept(k, w.enrolled[p].dir, w.enrolled[p].limits) <==> Kept(w.k, w.enrolled[p].dir, w.enrolled[p].limits)
    {
      HoldsSame(w.k, k, w.enrolled[p].dir, w.enrolled[p].limits);
    }
  }

  /** Writing down the planned limits for a pid whose dir holds them. */
  lemma RecordMidway(w: World, plan: map<Dir, CgroupLimits>, idle: set<Dir>, done: set<Pid>, p: Pid, en: Enrolled)
    requires Midway(w, plan, idle, done) && en.dir in plan && en.limits == plan[en.dir]
    requires p in w.k.at ==> w.k.at[p] == en.dir && Kept(w.k, en.dir, en.limits)
    ensures Midway(w.(enrolled := w.enrolled[p := en]), plan, idle, done + {p})
  {
  }

  lemma NoDirNoWrite(w: World, d: Dir, l: CgroupLimits)
    requires d !in w.k.dirs
    ensures Apply(w.k, w.base, d, l).0 == w.k
  {
  }

  lemma RewriteMidway(w: World, plan: map<Dir, CgroupLimits>, idle: set<Dir>, done: set<Pid>, p: Pid)
    requires Midway(w, plan, idle, done) && p in w.enrolled && w.enrolled[p].dir in plan
    ensures Midway(Rewrite(w, p, plan[w.enrolled[p].dir]), plan, idle, done + {p})
  {
    var en := w.enrolled[p];
    var l := plan[en.dir];
    if en.limits != l || w.reasserted {
      var k := Apply(w.k, w.base, en.dir, l).0;
      if en.dir in w.k.dirs {
        WrittenMidway(w, plan, idle, done, en.dir);
        ReadyWrites(w, plan, idle, en.dir);
      } else {
        NoDirNoWrite(w, en.dir, l);
      }
      RecordMidway(w.(k := k), plan, idle, done, p, en.(limits := l));
    } else {
      RecordMidway(w, plan, idle, done, p, en);
      assert w.enrolled[p := en] == w.enrolled;
    }
  }

  lemma MkdirMidway(w: World, plan: map<Dir, CgroupLimits>, idle: set<Dir>, done: set<Pid>, d: Dir)
    requires Midway(w, plan, idle, done)
    ensures Midway(w.(k := MkdirAll(w.k, d)), plan, idle, done)
  {
  }

  lemma MoveMidway(w: World, plan: map<Dir, CgroupLimits>, idle: set<Dir>, done: set<Pid>, p: Pid, d: Dir)
    requires Midway(w, plan, idle, done) && p !in w.enrolled
    ensures Midway(w.(k := Move(w.k, p, d)), plan, idle, done)
  {
  }

  lemma JoinedMidway(w: World, plan: map<Dir, CgroupLimits>, idle: set<Dir>, done: set<Pid>, p: Pid, d: Dir)
    requires Midway(w, plan, idle, done) && p !in w.enrolled && d in plan
    ensures Midway(Joined(w, p, d, plan[d]), plan, idle, done + {p})
  {
    var w1 := w.(k := MkdirAll(w.k, d));
    assert d[..|d|] == d;
    MkdirMidway(w, plan, idle, done, d);
    WrittenMidway(w1, plan, idle, done, d);
    ReadyWrites(w1, plan, idle, d);
    var w2 := w1.(k := Apply(w1.k, w1.base, d, plan[d]).0);
    if Apply(w1.k, w1.base, d, plan[d]).1 && CanMove(w2.k, p, d) {
      var w3 := w2.(k := Move(w2.k, p, d));
      MoveMidway(w2, plan, idle, done, p, d);
      HoldsSame(w2.k, w3.k, d, plan[d]);
      RecordMidway(w3, plan, idle, done, p, Enrolled(d, OriginFor(w, p), plan[d]));
      var w4 := w3.(enrolled := w3.enrolled[p := Enrolled(d, OriginFor(w, p), plan[d])]);
      assert Midway(w4.(created := w4.created + {d}), plan, idle, done + {p});
      SaveMidway(w4.(created := w4.created + {d}), plan, idle, done + {p});
    }
  }

  lemma SyncMidway(w: World, plan: map<Dir, CgroupLimits>, idle: set<Dir>, done: set<Pid>, x: Want)
    requires Midway(w, plan, idle, done)
    requires x.limits.Some? ==> var d := Target(w.base.value, x.key, x.limits.value); d in plan && plan[d] == x.limits.value
    ensures Midway(SyncPid(w, x.pid, x.key, x.limits), plan, idle, done + {x.pid})
    ensures SyncPid(w, x.pid, x.key, x.limits).base == w.base
  {
    SyncDirect(w, x.pid, x.key, x.limits);
    ReturnedMidway(w, plan, idle, done, x.pid);
    if x.limits.Some? {
      var d := Target(w.base.value, x.key, x.limits.value);
      if x.pid in w.enrolled && w.enrolled[x.pid].dir == d {
        RewriteMidway(w, plan, idle, done, x.pid);
      } else {
        JoinedMidway(Returned(w, x.pid), plan, idle, done + {x.pid}, x.pid, d);
        assert done + {x.pid} + {x.pid} == done + {x.pid};
      }
    }
  }

  lemma {:induction false} SyncAllMidway(w: World, plan: map<Dir, CgroupLimits>, idle: set<Dir>, done: set<Pid>, wants: seq<Want>)
    requires Midway(w, plan, idle, done) && PlanFits(w, wants, plan)
    ensures Midway(SyncAll(w, wants), plan, idle, done + set x | x in wants :: x.pid)
    decreases wants
  {
    var all := done + set x | x in wants :: x.pid;
    if wants == [] {
      assert all == done;
    } else {
      var x := wants[0];
      var w1 := SyncPid(w, x.pid, x.key, x.limits);
      SyncMidway(w, plan, idle, done, x);
      SyncAllMidway(w1, plan, idle, done + {x.pid}, wants[1..]);
      assert wants == [x] + wants[1..];
      assert all == done + {x.pid} + set y | y in wants[1..] :: y.pid;
    }
  }

  // ----- the sweep at the end of the poll -----

  /** Live enrolled processes stay enrolled and where they are, and so do the files of their dirs. */
  ghost predicate Keeps(w: World, w': World) {
    && w'.base == w.base && w'.k.at.Keys == w.k.at.Keys && InPlace(w') && w'.k.subtreeCpu == w.k.subtreeCpu
    && (forall p | p in w.k.at :: p in w'.enrolled <==> p in w.enrolled)
    && (forall p | p in w.k.at && p in w.enrolled :: w'.enrolled[p] == w.enrolled[p])
    && forall p | p in w.enrolled && p in w.k.at :: w'.k.at[p] == w.k.at[p] && SameFiles(w.k, w'.k, w.k.at[p])
  }

  lemma KeepsTwice(w: World, w1: World, w2: World)
    requires Keeps(w, w1) && Keeps(w1, w2)
    ensures Keeps(w, w2)
  {
  }

  lemma PruneKeepsFiles(w: World, d: Dir)
    requires InPlace(w)
    ensures Keeps(w, Prune(w, d))
  {
    if Removable(w.k, d) {
      forall p | p in w.k.at
        ensures w.k.at[p] != d
      {
        assert p !in Procs(w.k, d);
      }
    }
  }

  lemma ParkKeepsFiles(w: World, critical: set<Pid>, d: Dir)
    requires InPlace(w) && w.base.Some?
    ensures Keeps(w, MoveStrays(w, critical, d))
  {
    var stray := StrayDir(w.base.value);
    var who := Strays(w, critical, d);
    if who == {} {
      KeepsItself(w);
    } else {
      var k := MkdirAll(w.k, stray);
      assert InPlace(w.(k := k));
      ParkKeepsPlaces(w.(k := k), who, stray);
    }
  }

  lemma ParkKeepsPlaces(w: World, who: set<Pid>, stray: Dir)
    requires InPlace(w) && who !! w.enrolled.Keys
    ensures Keeps(w, w.(k := w.k.(at := Parked(w.k, who, stray))))
  {
  }

  lemma SweepDirKeepsFiles(w: World, critical: set<Pid>, d: Dir)
    requires InPlace(w) && w.base.Some?
    ensures Keeps(w, SweepDir(w, critical, d))
  {
    var w1 := MoveStrays(w, critical, d);
    var w2 := Prune(w1, d);
    ParkKeepsFiles(w, critical, d);
    PruneKeepsFiles(w1, d);
    PruneKeepsFiles(w2, StrayDir(w.base.value));
    KeepsTwice(w, w1, w2);
    KeepsTwice(w, w2, Prune(w2, StrayDir(w.base.value)));
    KeepsItself(w);
  }

  lemma KeepsItself(w: World)
    requires InPlace(w)
    ensures Keeps(w, w)
  {
  }

  lemma {:induction false} SweepDirsKeepFiles(w: World, critical: set<Pid>, order: seq<Dir>)
    requires InPlace(w) && w.base.Some?
    ensures Keeps(w, SweepDirs(w, critical, order))
    decreases order
  {
    if order == [] {
      KeepsItself(w);
    } else {
      var w1 := SweepDir(w, critical, order[0]);
      SweepDirKeepsFiles(w, critical, order[0]);
      SweepDirsKeepFiles(w1, critical, order[1..]);
      KeepsTwice(w, w1, SweepDirs(w1, critical, order[1..]));
    }
  }

  lemma AdoptKeepsFiles(w: World, some: set<Dir>)
    requires InPlace(w)
    ensures Keeps(w, AdoptDirs(w, some))
  {
    forall p | p in w.k.at
      ensures !Removable(w.k, w.k.at[p])
    {
      assert p in Procs(w.k, w.k.at[p]);
    }
  }

  lemma SweepKeepsFiles(w: World, critical: set<Pid>, order: seq<Dir>)
    requires InPlace(w)
    ensures Keeps(w, Sweep(w, critical, order))
  {
    if w.base.Some? {
      SweepDirsKeepFiles(w, critical, order);
      var w' := SweepDirs(w, critical, order);
      AdoptKeepsFiles(w', Unadopted(w'));
    }
  }

  lemma KeepsHeld(w: World, w': World)
    requires InPlace(w) && Keeps(w, w')
    ensures Held(w) <==> Held(w')
  {
    forall p | p in w.enrolled && p in w.k.at
      ensures Kept(w.k, w.enrolled[p].dir, w.enrolled[p].limits) <==> Kept(w'.k, w.enrolled[p].dir, w.enrolled[p].limits)
    {
      HoldsSame(w.k, w'.k, w.enrolled[p].dir, w.enrolled[p].limits);
    }
  }

  // ----- forgetting the exited -----

  ghost predicate Exited(w: World, exited: seq<Pid>) {
    forall p | p in exited :: p !in w.k.at
  }

  lemma DropEntryKeeps(w: World, p: Pid)
    requires InPlace(w) && p !in w.k.at
    ensures Keeps(w, w.(enrolled := w.enrolled - {p}))
  {
  }

  lemma SaveKeeps(w: World)
    requires InPlace(w)
    ensures Keeps(w, SaveState(w))
  {
  }

  lemma ForgetOneKeeps(w: World, p: Pid)
    requires InPlace(w) && p !in w.k.at
    ensures Keeps(w, Forget(w, p)) && Forget(w, p).k.at == w.k.at
  {
    ForgetDirect(w, p);
    if p in w.enrolled {
      var w1 := w.(enrolled := w.enrolled - {p});
      var w2 := Prune(w1, w.enrolled[p].dir);
      DropEntryKeeps(w, p);
      PruneKeepsFiles(w1, w.enrolled[p].dir);
      KeepsTwice(w, w1, w2);
      SaveKeeps(w2);
      KeepsTwice(w, w2, SaveState(w2));
    } else {
      KeepsItself(w);
    }
  }

  /** Forgetting exited processes takes nothing from the living. */
  lemma {:induction false} ForgottenKeeps(w: World, exited: seq<Pid>)
    requires InPlace(w) && Exited(w, exited)
    ensures Keeps(w, ForgetAll(w, exited)) && ForgetAll(w, exited).k.at == w.k.at
    decreases exited
  {
    if exited == [] {
      KeepsItself(w);
    } else {
      var w1 := Forget(w, exited[0]);
      ForgetOneKeeps(w, exited[0]);
      ForgottenKeeps(w1, exited[1..]);
      KeepsTwice(w, w1, ForgetAll(w1, exited[1..]));
    }
  }

  /** The sweep and the forgetting at the end of a poll. */
  lemma EndOfPollKeeps(w: World, critical: set<Pid>, order: seq<Dir>, exited: seq<Pid>)
    requires InPlace(w) && Exited(w, exited)
    ensures Keeps(w, ForgetAll(Sweep(w, critical, order).(reasserted := false), exited))
  {
    var w1 := Sweep(w, critical, order);
    var w2 := w1.(reasserted := false);
    SweepKeepsFiles(w, critical, order);
    assert Keeps(w1, w2);
    KeepsTwice(w, w1, w2);
    ForgottenKeeps(w2, exited);
    KeepsTwice(w, w2, ForgetAll(w2, exited));
  }

  // ----- whole polls -----

  /** What is asked of the environment: the controllers and the planned limits can be written, and the poll sees
      every live enrolled process. */
  ghost predicate PollAllowed(w: World, wants: seq<Want>, plan: map<Dir, CgroupLimits>) {
    && PlanFits(w, wants, plan) && InPlace(w) && Ready(w, plan) && !w.k.deny.controllers
    && forall p | p in w.enrolled && p in w.k.at :: exists x | x in wants :: x.pid == p
  }

  /** The same processes, and nobody enrolled anew but `p`. */
  ghost predicate EnrolsOnly(w: World, w': World, p: Pid) {
    w'.k.at.Keys == w.k.at.Keys && w'.enrolled.Keys <= w.enrolled.Keys + {p}
  }

  lemma ReturnedEnrolsOnly(w: World, p: Pid)
    ensures EnrolsOnly(w, Returned(w, p), p)
  {
  }

  lemma JoinedEnrolsOnly(w: World, p: Pid, d: Dir, l: CgroupLimits)
    ensures EnrolsOnly(w, Joined(w, p, d, l), p)
  {
    ApplyMeaning(MkdirAll(w.k, d), w.base, d, l);
  }

  lemma SyncEnrolsOnly(w: World, x: Want)
    ensures EnrolsOnly(w, SyncPid(w, x.pid, x.key, x.limits), x.pid)
  {
    SyncDirect(w, x.pid, x.key, x.limits);
    ReturnedEnrolsOnly(w, x.pid);
    if w.base.Some? && x.limits.Some? {
      var d := Target(w.base.value, x.key, x.limits.value);
      ApplyMeaning(w.k, w.base, d, x.limits.value);
      JoinedEnrolsOnly(Returned(w, x.pid), x.pid, d, x.limits.value);
    }
  }

  lemma {:induction false} SyncAllEnrolsOnly(w: World, wants: seq<Want>)
    ensures SyncAll(w, wants).k.at.Keys == w.k.at.Keys
    ensures forall p | p in SyncAll(w, wants).enrolled :: p in w.enrolled || exists x | x in wants :: x.pid == p
    decreases wants
  {
    if wants != [] {
      var x := wants[0];
      SyncEnrolsOnly(w, x);
      SyncAllEnrolsOnly(SyncPid(w, x.pid, x.key, x.limits), wants[1..]);
      assert wants == [x] + wants[1..];
    }
  }

  /** The dirs in which the poll's writes of a planned weight will meet idleness: idle once the controllers have been
      asserted, which a drop of `cpu` has cleared below the base. */
  ghost function InTheWay(w: World, plan: map<Dir, CgroupLimits>): set<Dir> {
    set d | d in plan && Stuck(EnsureControllersOf(w).k, d, plan[d])
  }

  /** Self-healing: if the poll finds `cpu` dropped (or a rewrite still due), or everything in order, then after it
      every live enrolled process is in its dir, with the limits its rule now asks for recorded; and the dir holds
      every value those limits write, unless it was idle at the start and they ask for a weight.  So the next poll
      starts from order again. */
  lemma PollHeals(
    w: World, wants: seq<Want>, plan: map<Dir, CgroupLimits>, critical: set<Pid>, order: seq<Dir>, exited: seq<Pid>)
    requires PollAllowed(w, wants, plan) && Exited(w, exited)
    requires !w.k.subtreeCpu || w.reasserted || Held(w)
    ensures var w' := Poll(w, wants, critical, order, exited);
      && InPlace(w') && Held(w')
      && forall p | p in w'.enrolled && p in w'.k.at ::
           var en := w'.enrolled[p];
           en.dir in plan && en.limits == plan[en.dir] && (Holds(w'.k, en.dir, en.limits) || en.dir in InTheWay(w, plan))
  {
    PollLeavesHealed(w, wants, plan, critical, order, exited);
  }

  /** After the reconciles of a poll, before its sweep. */
  lemma SyncsHeal(w: World, wants: seq<Want>, plan: map<Dir, CgroupLimits>)
    requires PollAllowed(w, wants, plan) && (!w.k.subtreeCpu || w.reasserted || Held(w))
    ensures var w2 := SyncAll(EnsureControllersOf(w), wants);
      Healed(w2, plan, InTheWay(w, plan)) && w2.k.at.Keys == w.k.at.Keys
  {
    var w1 := EnsureControllersOf(w);
    var idle := InTheWay(w, plan);
    assert Midway(w1, plan, idle, {});
    SyncAllMidway(w1, plan, idle, {}, wants);
    SyncAllEnrolsOnly(w1, wants);
    var w2 := SyncAll(w1, wants);
    var seen := {} + set x | x in wants :: x.pid;
    forall p | p in w2.enrolled && p in w2.k.at
      ensures p in seen
    {
    }
  }

  lemma PollLeavesHealed(
    w: World, wants: seq<Want>, plan: map<Dir, CgroupLimits>, critical: set<Pid>, order: seq<Dir>, exited: seq<Pid>)
    requires PollAllowed(w, wants, plan) && Exited(w, exited)
    requires !w.k.subtreeCpu || w.reasserted || Held(w)
    ensures Healed(Poll(w, wants, critical, order, exited), plan, InTheWay(w, plan))
  {
    SyncsHeal(w, wants, plan);
    var w2 := SyncAll(EnsureControllersOf(w), wants);
    EndOfPollKeeps(w2, critical, order, exited);
    KeepsHealed(w2, Poll(w, wants, critical, order, exited), plan, InTheWay(w, plan));
  }

  /** The limits as recorded are the planned ones, and kept to except where a dir of `idle` is in the way. */
  ghost predicate Healed(w: World, plan: map<Dir, CgroupLimits>, idle: set<Dir>) {
    InPlace(w) && forall p | p in w.enrolled && p in w.k.at ::
      var en := w.enrolled[p];
      en.dir in plan && en.limits == plan[en.dir] && Kept(w.k, en.dir, en.limits) && (Stuck(w.k, en.dir, en.limits) ==> en.dir in idle)
  }

  lemma KeepsHealed(w: World, w': World, plan: map<Dir, CgroupLimits>, idle: set<Dir>)
    requires Healed(w, plan, idle) && Keeps(w, w')
    ensures Healed(w', plan, idle)
  {
    forall p | p in w'.enrolled && p in w'.k.at
      ensures var en := w'.enrolled[p];
        && en.dir in plan && en.limits == plan[en.dir] && Kept(w'.k, en.dir, en.limits)
        && (Stuck(w'.k, en.dir, en.limits) ==> en.dir in idle)
    {
      HoldsSame(w.k, w'.k, w.enrolled[p].dir, w.enrolled[p].limits);
    }
  }

  /** A poll in which no rule has changed: everybody is enrolled already just as wanted. */
  ghost predicate Quiet(w: World, wants: seq<Want>) {
    w.base.Some? && forall x | x in wants ::
      if x.limits.Some?
      then x.pid in w.enrolled && w.enrolled[x.pid].dir == Target(w.base.value, x.key, x.limits.value)
           && w.enrolled[x.pid].limits == x.limits.value
      else x.pid !in w.enrolled
  }

  lemma {:induction false} QuietSyncs(w: World, wants: seq<Want>)
    requires Quiet(w, wants) && !w.reasserted
    ensures SyncAll(w, wants) == w
    decreases wants
  {
    if wants != [] {
      SyncDirect(w, wants[0].pid, wants[0].key, wants[0].limits);
      QuietSyncs(w, wants[1..]);
    }
  }

  /** A quiet poll leaves the limits in place exactly when they were in place or the poll found `cpu` missing.  So a
      drop that systemd undoes itself between two polls is not healed, although it reset the same values. */
  lemma QuietPollHealsIff(
    w: World, wants: seq<Want>, plan: map<Dir, CgroupLimits>, critical: set<Pid>, order: seq<Dir>, exited: seq<Pid>)
    requires PollAllowed(w, wants, plan) && Exited(w, exited) && Quiet(w, wants) && !w.reasserted
    ensures Held(Poll(w, wants, critical, order, exited)) <==> (!w.k.subtreeCpu || Held(w))
  {
    if !w.k.subtreeCpu || Held(w) {
      PollHeals(w, wants, plan, critical, order, exited);
    } else {
      assert EnsureControllersOf(w) == w;
      QuietSyncs(w, wants);
      EndOfPollKeeps(w, critical, order, exited);
      KeepsHeld(w, Poll(w, wants, critical, order, exited));
    }
  }

  // ----- one rewrite, exactly -----

  /** A reconcile in the same dir, with new limits or after a re-assertion, everything else being writable: the writes
      go through exactly if no weight meets an idle dir, and then the dir holds all of them; otherwise at most the cap
      has been written, and the weight and the memory limits are what they were.  Either way the new limits are
      recorded as if written. */
  lemma SyncRewritesIff(w: World, p: Pid, key: string, l: CgroupLimits)
    requires w.base.Some? && p in w.enrolled && w.enrolled[p].dir == Target(w.base.value, key, l)
    requires (w.enrolled[p].limits != l || w.reasserted) && Willing(w.k, w.base, w.enrolled[p].dir, l)
    ensures var d := w.enrolled[p].dir; var w' := SyncPid(w, p, key, Some(l));
      && w' == w.(k := Apply(w.k, w.base, d, l).0, enrolled := w.enrolled[p := w.enrolled[p].(limits := l)])
      && (Apply(w.k, w.base, d, l).1 <==> !(l.cpuIdle.None? && l.cpuWeight.Some? && IsIdle(w.k, d)))
      && (Apply(w.k, w.base, d, l).1 ==> Holds(w'.k, d, l))
      && (!Apply(w.k, w.base, d, l).1 ==> w'.k == ApplyAll(w.k, w.base, d, CapRequests(l)).0 && OthersAsWere(w.k, w'.k, d))
  {
    var d := w.enrolled[p].dir;
    SyncDirect(w, p, key, Some(l));
    WillingAppliesIff(w.k, w.base, d, l);
    ApplyMeaning(w.k, w.base, d, l);
    if Stuck(w.k, d, l) {
      StuckStops(w.k, w.base, d, l);
    }
  }

  /** The files of `d`, the cap apart. */
  ghost predicate OthersAsWere(k: Kernel, k': Kernel, d: Dir) {
    forall f | f != CpuMax ::
      ((d, f) in k'.files <==> (d, f) in k.files) && ((d, f) in k.files ==> k'.files[(d, f)] == k.files[(d, f)])
  }

  /** A rule that turns from `cpu_idle` to a weight never clears the flag, so the kernel rejects the weight and the
      memory limits behind it are not reached; the new limits are recorded as if written, and are not retried. */
  lemma IdleKeepsWeightOut(w: World, p: Pid, key: string, l: CgroupLimits)
    requires w.base.Some? && p in w.enrolled && w.enrolled[p].dir == Target(w.base.value, key, l)
    requires Stuck(w.k, w.enrolled[p].dir, l) && w.enrolled[p].limits != l && !w.reasserted
    ensures var w1 := SyncPid(w, p, key, Some(l)); var d := w.enrolled[p].dir;
      && !Apply(w.k, w.base, d, l).1 && w1.enrolled[p].limits == l && OthersAsWere(w.k, w1.k, d)
      && SyncPid(w1, p, key, Some(l)) == w1
  {
    SyncDirect(w, p, key, Some(l));
    StuckStops(w.k, w.base, w.enrolled[p].dir, l);
    SyncDirect(SyncPid(w, p, key, Some(l)), p, key, Some(l));
  }
}
