/** The limits over whole runs: polls with any change of rules between them, processes forking and exiting, and
    systemd dropping the `cpu` controller and bringing it back. */
module HealingRuns {
  import opened Wrappers
  import opened Config
  import opened Cgroupfs
  import opened Enrolment
  import opened Limits
  import opened SelfHealing
  import opened Rewrites

  datatype Event =
    | Fork(parent: Pid, child: Pid)
    | Exit(pid: Pid)
    | Drop
    | Restore
    | PollNow(wants: seq<Want>, plan: map<Dir, CgroupLimits>, critical: set<Pid>, order: seq<Dir>, exited: seq<Pid>)

  ghost predicate Enabled(w: World, e: Event) {
    match e
    case Fork(parent, child) => parent in w.k.at && child !in w.k.at && child !in w.enrolled
    case PollNow(wants, plan, _, _, exited) => PollAllowed(w, wants, plan) && Exited(w, exited)
    case _ => true
  }

  ghost function Next(w: World, e: Event): World
    requires Enabled(w, e)
  {
    match e
    case Fork(parent, child) => w.(k := w.k.(at := w.k.at[child := w.k.at[parent]]))
    case Exit(p) => w.(k := w.k.(at := w.k.at - {p}))
    case Drop => w.(k := DropCpu(w.k, w.base))
    case Restore => w.(k := EnableCpu(w.k, w.base))
    case PollNow(wants, _, critical, order, exited) => Poll(w, wants, critical, order, exited)
  }

  ghost predicate CanRun(w: World, es: seq<Event>)
    decreases es, 0
  {
    es == [] || (CanRun(w, es[..|es| - 1]) && Enabled(Run(w, es[..|es| - 1]), es[|es| - 1]))
  }

  ghost function Run(w: World, es: seq<Event>): World
    requires CanRun(w, es)
    decreases es, 1
  {
    if es == [] then w else Next(Run(w, es[..|es| - 1]), es[|es| - 1])
  }

  // ----- any polls, drops left in force -----

  /** Every live enrolled process has its limits, or the next poll will rewrite them all. */
  ghost predicate InOrder(w: World) {
    InPlace(w) && (Held(w) || !w.k.subtreeCpu || w.reasserted)
  }

  lemma StepInOrder(w: World, e: Event)
    requires InOrder(w) && Enabled(w, e) && !e.Restore?
    ensures InOrder(Next(w, e))
    ensures e.PollNow? ==> Healed(Next(w, e), e.plan, InTheWay(w, e.plan))
  {
    match e
    case PollNow(wants, plan, critical, order, exited) =>
      PollHeals(w, wants, plan, critical, order, exited);
      PollLeavesHealed(w, wants, plan, critical, order, exited);
    case _ =>
  }

  /** Self-healing over runs: as long as systemd does not undo its own drops, after every poll of every run each live
      enrolled process is in its dir under the limits its rule then asks for, and the dir holds all of them unless it
      was idle when the poll came to it and they ask for a weight. */
  lemma {:induction false} RunHeals(w: World, es: seq<Event>)
    requires InOrder(w) && CanRun(w, es) && Restore !in es
    ensures InOrder(Run(w, es))
    ensures es != [] && es[|es| - 1].PollNow? ==>
              var e := es[|es| - 1]; Healed(Run(w, es), e.plan, InTheWay(Run(w, es[..|es| - 1]), e.plan))
    decreases es
  {
    if es != [] {
      RunHeals(w, es[..|es| - 1]);
      assert es[|es| - 1] in es;
      StepInOrder(Run(w, es[..|es| - 1]), es[|es| - 1]);
    }
  }

  // ----- any polls, drops undone or not -----

  predicate AsksCpu(l: CgroupLimits) { l.cpuCapPercent.Some? || l.cpuIdle.Some? || l.cpuWeight.Some? }

  /** A cpu value other than the one a restored controller starts with. */
  predicate AsksBeyondDefault(l: CgroupLimits) {
    l.cpuCapPercent.Some? || l.cpuIdle == Some(true) || (l.cpuIdle.None? && l.cpuWeight.Some? && l.cpuWeight != Some(100))
  }

  /** The last drop is later than the last time a poll wrote the dir. */
  ghost predicate LostIn(w: World, es: seq<Event>, d: Dir)
    requires CanRun(w, es)
    decreases es
  {
    es != [] &&
    var front, e := es[..|es| - 1], es[|es| - 1];
    (e.Drop? || (LostIn(w, front, d) && !(e.PollNow? && Attempted(EnsureControllersOf(Run(w, front)), e.wants, d))))
  }

  /** At no poll of the run is `d` idle and asked for a weight. */
  ghost predicate NeverStuck(w: World, es: seq<Event>, d: Dir)
    requires CanRun(w, es)
    decreases es
  {
    es != [] ==>
      var front, e := es[..|es| - 1], es[|es| - 1];
      NeverStuck(w, front, d) && (e.PollNow? ==> d !in InTheWay(Run(w, front), e.plan))
  }

  // ----- the cpu half and the rest of a dir's limits -----

  ghost predicate HoldsPart(k: Kernel, d: Dir, l: CgroupLimits, cpu: bool) {
    forall i | 0 <= i < |Requests(l)| && Requests(l)[i].Put? && IsCpuFile(Requests(l)[i].file) == cpu ::
      (d, Requests(l)[i].file) in k.files && k.files[(d, Requests(l)[i].file)] == Requests(l)[i].value
  }

  lemma HoldsInParts(k: Kernel, d: Dir, l: CgroupLimits)
    ensures Holds(k, d, l) <==> HoldsPart(k, d, l, true) && HoldsPart(k, d, l, false)
  {
  }

  ghost predicate CpuAbsent(k: Kernel, d: Dir) {
    forall f | IsCpuFile(f) :: (d, f) !in k.files
  }

  ghost predicate CpuDefault(k: Kernel, d: Dir) {
    forall f | IsCpuFile(f) :: (d, f) in k.files && k.files[(d, f)] == DefaultOf(f)
  }

  /** The cpu requests of `l`: none but the cap and one of idle flag and weight. */
  lemma CpuRequests(l: CgroupLimits)
    ensures forall i | 0 <= i < |Requests(l)| && Requests(l)[i].Put? && IsCpuFile(Requests(l)[i].file) ::
              var r := Requests(l)[i];
              || (r.file.CpuMax? && l.cpuCapPercent.Some? && r.value.Quota?)
              || (r.file.CpuIdle? && l.cpuIdle.Some? && r.value == Flag(l.cpuIdle.value))
              || (r.file.CpuWeight? && l.cpuIdle.None? && l.cpuWeight.Some? && r.value == Weight(l.cpuWeight.value))
  {
  }

  lemma AbsentHoldsIff(k: Kernel, d: Dir, l: CgroupLimits)
    requires CpuAbsent(k, d)
    ensures HoldsPart(k, d, l, true) <==> !AsksCpu(l)
  {
    CpuRequests(l);
    if l.cpuCapPercent.Some? {
      assert IsCpuFile(Requests(l)[0].file);
    } else if AsksCpu(l) {
      assert Requests(l)[0] == ShareRequests(l)[0];
    }
  }

  lemma DefaultHoldsIff(k: Kernel, d: Dir, l: CgroupLimits)
    requires CpuDefault(k, d)
    ensures HoldsPart(k, d, l, true) <==> !AsksBeyondDefault(l)
  {
    CpuRequests(l);
    if l.cpuCapPercent.Some? {
      assert Requests(l)[0].file == CpuMax && Requests(l)[0].value.Quota?;
    } else if AsksBeyondDefault(l) {
      assert Requests(l)[0] == ShareRequests(l)[0];
    }
  }

  // ----- what is left of a dir's limits -----

  /** The dir has the limits, except that below the base `lost` has cost it the cpu values: they are gone while the
      controller is, and at their defaults once it is back. */
  ghost predicate HasExcept(w: World, d: Dir, l: CgroupLimits, lost: bool) {
    && !Stuck(w.k, d, l) && HoldsPart(w.k, d, l, false)
    && if lost && Below(w.base, d) then (if w.k.subtreeCpu then CpuDefault(w.k, d) else CpuAbsent(w.k, d))
       else HoldsPart(w.k, d, l, true)
  }

  /** Whoever lives in `d` has its limits but for what is lost; and without the controller everything below is lost. */
  ghost predicate DirSound(w: World, d: Dir, lost: bool) {
    && InPlace(w) && !w.reasserted && (!w.k.subtreeCpu && Below(w.base, d) ==> lost)
    && forall p | LivesIn(w, p, d) :: HasExcept(w, d, w.enrolled[p].limits, lost)
  }

  lemma SameExcept(w: World, w': World, d: Dir, l: CgroupLimits, lost: bool)
    requires SameFiles(w.k, w'.k, d) && w'.base == w.base && w'.k.subtreeCpu == w.k.subtreeCpu
    ensures HasExcept(w, d, l, lost) <==> HasExcept(w', d, l, lost)
  {
  }

  lemma DropTakes(w: World, d: Dir, l: CgroupLimits, lost: bool)
    requires HasExcept(w, d, l, lost)
    ensures HasExcept(w.(k := DropCpu(w.k, w.base)), d, l, true)
  {
    var k' := DropCpu(w.k, w.base);
    if Below(w.base, d) {
      assert CpuAbsent(k', d);
      forall i | 0 <= i < |Requests(l)| && Requests(l)[i].Put? && !IsCpuFile(Requests(l)[i].file)
        ensures (d, Requests(l)[i].file) in k'.files && k'.files[(d, Requests(l)[i].file)] == Requests(l)[i].value
      {
      }
    } else {
      assert SameFiles(w.k, k', d);
    }
  }

  lemma RestoreBrings(w: World, d: Dir, l: CgroupLimits, lost: bool)
    requires HasExcept(w, d, l, lost) && d in w.k.dirs && (!w.k.subtreeCpu && Below(w.base, d) ==> lost)
    ensures HasExcept(w.(k := EnableCpu(w.k, w.base)), d, l, lost)
  {
    var k' := EnableCpu(w.k, w.base);
    if !w.k.subtreeCpu && Below(w.base, d) {
      forall f | IsCpuFile(f)
        ensures (d, f) in k'.files && k'.files[(d, f)] == DefaultOf(f)
      {
        assert f in {CpuMax, CpuIdle, CpuWeight};
      }
    } else {
      assert SameFiles(w.k, k', d);
    }
  }

  lemma EnvironmentStep(w: World, e: Event, d: Dir, lost: bool)
    requires DirSound(w, d, lost) && Enabled(w, e) && !e.PollNow?
    ensures DirSound(Next(w, e), d, lost || e.Drop?)
  {
    var w' := Next(w, e);
    forall p | LivesIn(w', p, d)
      ensures HasExcept(w', d, w'.enrolled[p].limits, lost || e.Drop?)
    {
      assert LivesIn(w, p, d);
      var l := w.enrolled[p].limits;
      match e
      case Drop => DropTakes(w, d, l, lost);
      case Restore => RestoreBrings(w, d, l, lost);
      case _ => SameExcept(w, w', d, l, lost);
    }
  }

  lemma PollStep(w: World, e: Event, d: Dir, lost: bool)
    requires DirSound(w, d, lost) && Enabled(w, e) && e.PollNow? && d !in InTheWay(w, e.plan)
    ensures DirSound(Next(w, e), d, lost && !Attempted(EnsureControllersOf(w), e.wants, d))
  {
    var w' := Next(w, e);
    PollKeepsGround(w, e);
    NotReasserted(Sweeping.Sweep(SyncAll(EnsureControllersOf(w), e.wants), e.critical, e.order).(reasserted := false), e.exited);
    forall p | LivesIn(w', p, d)
      ensures HasExcept(w', d, w'.enrolled[p].limits, lost && !Attempted(EnsureControllersOf(w), e.wants, d))
    {
      PollDir(w, e.wants, e.plan, e.critical, e.order, e.exited, p);
      HoldsInParts(w'.k, d, w'.enrolled[p].limits);
      if !Attempted(EnsureControllersOf(w), e.wants, d) {
        SameExcept(w, w', d, w.enrolled[p].limits, lost);
      }
    }
  }

  lemma PollKeepsGround(w: World, e: Event)
    requires Enabled(w, e) && e.PollNow?
    ensures InPlace(Next(w, e)) && Next(w, e).k.subtreeCpu && Next(w, e).base == w.base
  {
    var w1 := EnsureControllersOf(w);
    var idle := InTheWay(w, e.plan);
    assert Ground(w1, e.plan, idle);
    SyncAllGround(w1, e.wants, e.plan, idle, []);
    SyncAllEnrolsOnly(w1, e.wants);
    EndOfPollKeeps(SyncAll(w1, e.wants), e.critical, e.order, e.exited);
  }

  lemma {:induction false} NotReasserted(w: World, exited: seq<Pid>)
    ensures ForgetAll(w, exited).reasserted == w.reasserted
    decreases exited
  {
    if exited != [] {
      ForgetDirect(w, exited[0]);
      NotReasserted(Forget(w, exited[0]), exited[1..]);
    }
  }

  lemma {:induction false} RunDirSound(w: World, es: seq<Event>, d: Dir)
    requires DirSound(w, d, false) && CanRun(w, es) && NeverStuck(w, es, d)
    ensures DirSound(Run(w, es), d, LostIn(w, es, d))
    decreases es
  {
    if es != [] {
      var front, e := es[..|es| - 1], es[|es| - 1];
      RunDirSound(w, front, d);
      if e.PollNow? {
        PollStep(Run(w, front), e, d, LostIn(w, front, d));
      } else {
        EnvironmentStep(Run(w, front), e, d, LostIn(w, front, d));
      }
    }
  }

  /** Self-healing, exactly and dir by dir: at every moment of every run of polls with any rules, forks, exits, drops and
      restores, a process that lives in `d` lacks a value of its limits if and only if the dir lies below the base, was
      last written before the last drop, and the limits have a cpu part; once the controller is back, one that differs
      from the defaults it came back with. */
  lemma {:induction false} RunHealsIff(w: World, es: seq<Event>, p: Pid, d: Dir)
    requires DirSound(w, d, false) && CanRun(w, es) && NeverStuck(w, es, d) && LivesIn(Run(w, es), p, d)
    ensures var w' := Run(w, es); var l := w'.enrolled[p].limits;
      Holds(w'.k, d, l) <==>
      !(LostIn(w, es, d) && Below(w'.base, d) && if w'.k.subtreeCpu then AsksBeyondDefault(l) else AsksCpu(l))
  {
    RunDirSound(w, es, d);
    var w' := Run(w, es);
    var l := w'.enrolled[p].limits;
    HoldsInParts(w'.k, d, l);
    if LostIn(w, es, d) && Below(w'.base, d) {
      if w'.k.subtreeCpu {
        DefaultHoldsIff(w'.k, d, l);
      } else {
        AbsentHoldsIff(w'.k, d, l);
      }
    }
  }

  // ----- quiet polls -----

  ghost predicate QuietPolls(w: World, es: seq<Event>)
    requires CanRun(w, es)
    decreases es
  {
    es != [] ==>
      var front, e := es[..|es| - 1], es[|es| - 1];
      QuietPolls(w, front) && (e.PollNow? ==> Quiet(Run(w, front), e.wants))
  }

  lemma {:induction false} QuietAttemptsNothing(w: World, wants: seq<Want>, d: Dir)
    requires Quiet(w, wants) && !w.reasserted
    ensures !Attempted(w, wants, d)
    decreases wants
  {
    if wants != [] {
      var x := wants[0];
      assert wants == [x] + wants[1..];
      QuietSyncs(w, [x]);
      assert [x][1..] == [];
      assert SyncAll(w, [x]) == SyncPid(w, x.pid, x.key, x.limits);
      QuietAttemptsNothing(w, wants[1..], d);
    }
  }

  /** A drop that systemd undoes before a poll sees it is never healed by quiet polls, however many follow: without
      another drop, whoever lives below the base goes on without every cpu value that is not a default. */
  lemma {:induction false} UndoneDropIsNotHealed(w: World, es: seq<Event>, p: Pid, d: Dir)
    requires DirSound(w, d, false) && CanRun(w, es) && NeverStuck(w, es, d) && QuietPolls(w, es)
    requires |es| >= 2 && es[0] == Drop && es[1] == Restore && Drop !in es[1..]
    requires LivesIn(Run(w, es), p, d) && Below(Run(w, es).base, d)
    ensures var w' := Run(w, es); Holds(w'.k, d, w'.enrolled[p].limits) <==> !AsksBeyondDefault(w'.enrolled[p].limits)
  {
    LostForGood(w, es, d);
    RunHealsIff(w, es, p, d);
  }

  lemma {:induction false} LostForGood(w: World, es: seq<Event>, d: Dir)
    requires DirSound(w, d, false) && CanRun(w, es) && NeverStuck(w, es, d) && QuietPolls(w, es)
    requires |es| >= 2 && es[0] == Drop && es[1] == Restore && Drop !in es[1..]
    ensures LostIn(w, es, d) && Run(w, es).k.subtreeCpu
    decreases es
  {
    var front, e := es[..|es| - 1], es[|es| - 1];
    if |es| == 2 {
      assert front == [Drop] && front[..0] == [];
      assert LostIn(w, front, d);
    } else {
      assert front[0] == es[0] && front[1] == es[1];
      assert forall f | f in front[1..] :: f in es[1..];
      LostForGood(w, front, d);
      assert e in es[1..];
      RunDirSound(w, front, d);
      var q := Run(w, front);
      if e.PollNow? {
        QuietAttemptsNothing(q, e.wants, d);
        PollKeepsGround(q, e);
      }
    }
  }

  // ----- a weight for an idle dir, for ever -----

  /** Process `p` is enrolled and lives in the idle dir `d`, whose files but for the cap are as in `k`. */
  ghost predicate Frozen(k: Kernel, w: World, p: Pid, d: Dir) {
    && p in w.k.at && w.k.at[p] == d && p in w.enrolled && w.enrolled[p].dir == d
    && IsIdle(w.k, d) && OthersAsWere(k, w.k, d) && (w.k.subtreeCpu || !Below(w.base, d))
  }

  /** The poll asks a weight of `d` and says nothing about idleness, and wants `p` there. */
  ghost predicate AsksWeight(w: World, wants: seq<Want>, plan: map<Dir, CgroupLimits>, p: Pid, d: Dir) {
    && d in plan && plan[d].cpuIdle.None? && plan[d].cpuWeight.Some?
    && forall x | x in wants && x.pid == p :: x.limits.Some? && w.base.Some? && Target(w.base.value, x.key, x.limits.value) == d
  }

  lemma ApplyFrozen(k: Kernel, w: World, p: Pid, d: Dir, c: Dir, l: CgroupLimits)
    requires Frozen(k, w, p, d) && (c == d ==> l.cpuIdle.None? && l.cpuWeight.Some?)
    ensures Frozen(k, w.(k := Apply(w.k, w.base, c, l).0), p, d)
  {
    ApplyMeaning(w.k, w.base, c, l);
    if c == d {
      StuckStops(w.k, w.base, d, l);
    }
  }

  lemma ReturnedFrozen(k: Kernel, w: World, p: Pid, d: Dir, q: Pid)
    requires Frozen(k, w, p, d) && q != p
    ensures Frozen(k, Returned(w, q), p, d)
  {
    if q in w.enrolled {
      var w1 := w.(enrolled := w.enrolled - {q}, k := Move(w.k, q, w.enrolled[q].origin));
      assert Frozen(k, w1, p, d);
      PrunedFrozen(k, w1, p, d, w.enrolled[q].dir);
      SavedFrozen(k, Prune(w1, w.enrolled[q].dir), p, d);
    }
  }

  lemma PrunedFrozen(k: Kernel, w: World, p: Pid, d: Dir, c: Dir)
    requires Frozen(k, w, p, d)
    ensures Frozen(k, Prune(w, c), p, d)
  {
    assert p in Procs(w.k, d);
  }

  lemma SavedFrozen(k: Kernel, w: World, p: Pid, d: Dir)
    requires Frozen(k, w, p, d)
    ensures Frozen(k, SaveState(w), p, d)
  {
  }

  lemma JoinedFrozen(k: Kernel, w: World, p: Pid, d: Dir, q: Pid, c: Dir, l: CgroupLimits)
    requires Frozen(k, w, p, d) && q != p && (c == d ==> l.cpuIdle.None? && l.cpuWeight.Some?)
    ensures Frozen(k, Joined(w, q, c, l), p, d)
  {
    var w1 := w.(k := MkdirAll(w.k, c));
    assert Frozen(k, w1, p, d);
    ApplyFrozen(k, w1, p, d, c, l);
  }

  lemma RewriteFrozen(k: Kernel, w: World, p: Pid, d: Dir, q: Pid, l: CgroupLimits)
    requires Frozen(k, w, p, d) && q in w.enrolled && (w.enrolled[q].dir == d ==> l.cpuIdle.None? && l.cpuWeight.Some?)
    ensures Frozen(k, Rewrite(w, q, l), p, d) && Rewrite(w, q, l).base == w.base
  {
    ApplyFrozen(k, w, p, d, w.enrolled[q].dir, l);
  }

  lemma JoinedBase(w: World, q: Pid, c: Dir, l: CgroupLimits)
    ensures Joined(w, q, c, l).base == w.base && Returned(w, q).base == w.base
  {
  }

  lemma SyncFrozen(k: Kernel, w: World, wants: seq<Want>, plan: map<Dir, CgroupLimits>, p: Pid, d: Dir, x: Want)
    requires Frozen(k, w, p, d) && PlanFits(w, wants, plan) && AsksWeight(w, wants, plan, p, d) && x in wants
    ensures Frozen(k, SyncPid(w, x.pid, x.key, x.limits), p, d) && SyncPid(w, x.pid, x.key, x.limits).base == w.base
  {
    SyncDirect(w, x.pid, x.key, x.limits);
    if x.limits.None? {
      ReturnedFrozen(k, w, p, d, x.pid);
      JoinedBase(w, x.pid, d, plan[d]);
    } else {
      var l := x.limits.value;
      var c := Target(w.base.value, x.key, l);
      if x.pid in w.enrolled && w.enrolled[x.pid].dir == c {
        RewriteFrozen(k, w, p, d, x.pid, l);
      } else {
        ReturnedFrozen(k, w, p, d, x.pid);
        JoinedFrozen(k, Returned(w, x.pid), p, d, x.pid, c, l);
        JoinedBase(w, x.pid, c, l);
        JoinedBase(Returned(w, x.pid), x.pid, c, l);
      }
    }
  }

  lemma {:induction false} SyncAllFrozen(k: Kernel, w: World, wants: seq<Want>, plan: map<Dir, CgroupLimits>, p: Pid, d: Dir)
    requires Frozen(k, w, p, d) && PlanFits(w, wants, plan) && AsksWeight(w, wants, plan, p, d)
    ensures Frozen(k, SyncAll(w, wants), p, d)
    decreases wants
  {
    if wants != [] {
      var x := wants[0];
      assert wants == [x] + wants[1..];
      SyncFrozen(k, w, wants, plan, p, d, x);
      SyncAllFrozen(k, SyncPid(w, x.pid, x.key, x.limits), wants[1..], plan, p, d);
    }
  }

  lemma KeepsFrozen(k: Kernel, w: World, w': World, p: Pid, d: Dir)
    requires Frozen(k, w, p, d) && Keeps(w, w')
    ensures Frozen(k, w', p, d)
  {
  }

  lemma PollFrozen(k: Kernel, w: World, e: Event, p: Pid, d: Dir)
    requires InOrder(w) && Frozen(k, w, p, d) && e.PollNow? && Enabled(w, e) && AsksWeight(w, e.wants, e.plan, p, d)
    ensures Frozen(k, Next(w, e), p, d)
  {
    var w1 := EnsureControllersOf(w);
    assert Frozen(k, w1, p, d);
    SyncAllFrozen(k, w1, e.wants, e.plan, p, d);
    SyncsHeal(w, e.wants, e.plan);
    var w2 := SyncAll(w1, e.wants);
    EndOfPollKeeps(w2, e.critical, e.order, e.exited);
    KeepsFrozen(k, w2, Next(w, e), p, d);
  }

  /** The rule goes on asking for a weight, `p` lives on, and `cpu` is not dropped. */
  ghost predicate GoesOn(w: World, es: seq<Event>, p: Pid, d: Dir)
    requires CanRun(w, es)
    decreases es
  {
    es != [] ==>
      var front, e := es[..|es| - 1], es[|es| - 1];
      && GoesOn(w, front, p, d) && !e.Drop? && !e.Restore? && e != Exit(p)
      && (e.PollNow? ==> AsksWeight(Run(w, front), e.wants, e.plan, p, d))
  }

  /** A dir that is idle stays so under rules that ask it for a weight: through any number of polls, with any other
      rules changing, neither the weight nor a memory limit is ever written to it. */
  lemma {:induction false} IdleKeepsLimitsOut(w: World, es: seq<Event>, p: Pid, d: Dir)
    requires InOrder(w) && p in w.enrolled && p in w.k.at && w.enrolled[p].dir == d && IsIdle(w.k, d)
    requires w.k.subtreeCpu || !Below(w.base, d)
    requires CanRun(w, es) && GoesOn(w, es, p, d)
    ensures var w' := Run(w, es);
      && InOrder(w') && p in w'.enrolled && w'.enrolled[p].dir == d && IsIdle(w'.k, d)
      && forall f | f != CpuMax ::
           ((d, f) in w'.k.files <==> (d, f) in w.k.files) && ((d, f) in w.k.files ==> w'.k.files[(d, f)] == w.k.files[(d, f)])
  {
    RunFrozen(w, es, p, d);
  }

  lemma {:induction false} RunFrozen(w: World, es: seq<Event>, p: Pid, d: Dir)
    requires InOrder(w) && Frozen(w.k, w, p, d) && CanRun(w, es) && GoesOn(w, es, p, d)
    ensures InOrder(Run(w, es)) && Frozen(w.k, Run(w, es), p, d)
    decreases es
  {
    if es != [] {
      var front, e := es[..|es| - 1], es[|es| - 1];
      RunFrozen(w, front, p, d);
      StepInOrder(Run(w, front), e);
      if e.PollNow? {
        PollFrozen(w.k, Run(w, front), e, p, d);
      }
    }
  }
}
