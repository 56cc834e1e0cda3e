/** `CgroupManager` and the few system calls it makes, as objects updated in place.  Every method is proved to
    take the world exactly where the micro-steps of module Enrolment take it. */
module Manager {
  import opened Wrappers
  import opened Config
  import opened Cgroupfs
  import opened Enrolment
  import Ascend
  import Limits
  import opened Sweeping

  /** The kernel and the disk. */
  class System {
    var k: Kernel

    constructor (k: Kernel)
      ensures this.k == k
    {
      this.k := k;
    }

    /** Write a pid to `cgroup.procs`. */
    method MovePid(p: Pid, d: Dir) returns (ok: bool)
      modifies this
      ensures k == Move(old(k), p, d) && ok == CanMove(old(k), p, d)
    {
      ok := CanMove(k, p, d);
      if ok {
        k := k.(at := k.at[p := d]);
      }
    }

    method CreateDirAll(d: Dir) returns (ok: bool)
      modifies this
      ensures k == MkdirAll(old(k), d) && ok == CanMkdir(old(k), d)
    {
      ok := CanMkdir(k, d);
      k := MkdirAll(k, d);
    }

    method WriteFile(base: Option<Dir>, d: Dir, f: File, v: Value) returns (ok: bool)
      modifies this
      ensures ok == CanWrite(old(k), base, d, f) && k == if ok then Write(old(k), d, f, v) else old(k)
    {
      ok := CanWrite(k, base, d, f);
      if ok {
        k := Write(k, d, f, v);
      }
    }

    method RemoveDir(d: Dir) returns (ok: bool)
      modifies this
      ensures ok == Removable(old(k), d) && k == if ok then Rmdir(old(k), d) else old(k)
    {
      ok := Removable(k, d);
      if ok {
        k := Rmdir(k, d);
      }
    }
  }

  class CgroupManager {
    const system: System
    const base: Option<Dir>
    var enrolled: map<Pid, Enrolled>
    var createdDirs: set<Dir>
    var controllersReasserted: bool

    function World(): World
      reads this, system
    {
      Enrolment.World(base, enrolled, createdDirs, controllersReasserted, system.k)
    }

    /** A daemon start: recover what a killed predecessor left, then assert the controllers. */
    constructor (system: System, base: Option<Dir>)
      modifies system
      ensures this.system == system && this.base == base
      ensures World() == EnsureControllersOf(Recover(base, old(system.k)))
    {
      this.system := system;
      this.base := base;
      enrolled := map[];
      createdDirs := {};
      controllersReasserted := false;
      new;
      RecoverOrphans();
      EnsureControllers();
    }

    method EnsureControllers()
      modifies this`controllersReasserted, system
      ensures World() == EnsureControllersOf(old(World()))
    {
      if base.None? {
        return;
      }
      var hadCpu := system.k.subtreeCpu;
      if system.k.deny.controllers {
        return;
      }
      system.k := EnableCpu(system.k, base);
      if !hadCpu {
        controllersReasserted := true;
      }
    }

    method ClearControllersReasserted()
      modifies this`controllersReasserted
      ensures World() == old(World()).(reasserted := false)
    {
      controllersReasserted := false;
    }

    method IsCapped(p: Pid) returns (capped: bool)
      ensures capped == (p in enrolled)
    {
      capped := p in enrolled;
    }

    method Persist()
      modifies system
      ensures World() == SaveState(old(World()))
    {
      if !system.k.deny.stateFile {
        system.k := system.k.(stateFile := Entries(Mirror(enrolled)));
      }
    }

    method RemoveStateFile()
      modifies system
      ensures World() == RemoveState(old(World()))
    {
      if !system.k.deny.stateFile {
        system.k := system.k.(stateFile := Absent);
      }
    }

    method PruneDir(d: Dir)
      modifies this`createdDirs, system
      ensures World() == Prune(old(World()), d)
    {
      var ok := system.RemoveDir(d);
      if ok {
        createdDirs := createdDirs - {d};
      }
    }

    /** Move what the state file lists, and is still where it says, back to its origin. */
    method RecoverOrphans()
      requires enrolled == map[] && createdDirs == {} && !controllersReasserted
      modifies this`createdDirs, system
      ensures World() == Recover(base, old(system.k))
    {
      if !system.k.stateFile.Entries? {
        RemoveStateFile();
        return;
      }
      var t := system.k.stateFile.table;
      if |t| == 0 {
        return;
      }
      var pids := Ascend.Ascending(t.Keys);
      RecoverDirect(World(), pids, t);
      RecoverEach(pids, t);
      RemoveStateFile();
    }

    method RecoverEach(pids: seq<Pid>, t: map<Pid, (Dir, Dir)>)
      requires forall p | p in pids :: p in t
      modifies this`createdDirs, system
      ensures World() == RecoverPids(old(World()), pids, t)
    {
      ghost var goal := RecoverPids(World(), pids, t);
      var i := 0;
      while i < |pids|
        invariant 0 <= i <= |pids|
        invariant RecoverPids(World(), pids[i..], t) == goal
      {
        var p := pids[i];
        assert pids[i..][0] == p && pids[i..][1..] == pids[i + 1..];
        if p in system.k.at && system.k.at[p] == t[p].0 {
          var _ := system.MovePid(p, t[p].1);
          PruneDir(t[p].0);
        }
        i := i + 1;
      }
    }

    /** The control-file writes of one set of limits; stops at the first that fails. */
    method ApplyLimits(d: Dir, l: CgroupLimits) returns (ok: bool)
      modifies system
      ensures (system.k, ok) == Limits.Apply(old(system.k), base, d, l)
    {
      ghost var high, max := Limits.SizeRequests(MemoryHigh, l.memoryHigh), Limits.SizeRequests(MemoryMax, l.memoryMax);
      assert Limits.Requests(l) == Limits.CapRequests(l) + (Limits.ShareRequests(l) + (high + max));
      ok := ApplyCap(d, l, Limits.ShareRequests(l) + (high + max));
      if !ok { return; }
      ok := ApplyShare(d, l, high + max);
      if !ok { return; }
      ok := ApplySize(d, MemoryHigh, l.memoryHigh, max);
      if !ok { return; }
      assert max + [] == max;
      ok := ApplySize(d, MemoryMax, l.memoryMax, []);
    }

    /** The cap, with `rest` still to come. */
    method ApplyCap(d: Dir, l: CgroupLimits, ghost rest: seq<Limits.Request>) returns (ok: bool)
      modifies system
      ensures Limits.ApplyAll(old(system.k), base, d, Limits.CapRequests(l) + rest) ==
              if ok then Limits.ApplyAll(system.k, base, d, rest) else (system.k, false)
    {
      if l.cpuCapPercent.None? {
        assert Limits.CapRequests(l) + rest == rest;
        return true;
      }
      var pct := Max(Min(l.cpuCapPercent.value, Limits.MAX_CAP_PERCENT), 1);
      ok := system.WriteFile(base, d, CpuMax, Quota(pct * (Limits.PERIOD_US / 100), Limits.PERIOD_US));
      assert (Limits.CapRequests(l) + rest)[1..] == rest;
    }

    /** The idle flag, or else the weight, with `rest` still to come. */
    method ApplyShare(d: Dir, l: CgroupLimits, ghost rest: seq<Limits.Request>) returns (ok: bool)
      modifies system
      ensures Limits.ApplyAll(old(system.k), base, d, Limits.ShareRequests(l) + rest) ==
              if ok then Limits.ApplyAll(system.k, base, d, rest) else (system.k, false)
    {
      if l.cpuIdle.Some? {
        ok := system.WriteFile(base, d, CpuIdle, Flag(l.cpuIdle.value));
        assert (Limits.ShareRequests(l) + rest)[1..] == rest;
      } else if l.cpuWeight.Some? {
        ok := system.WriteFile(base, d, CpuWeight, Weight(l.cpuWeight.value));
        assert (Limits.ShareRequests(l) + rest)[1..] == rest;
      } else {
        assert Limits.ShareRequests(l) + rest == rest;
        ok := true;
      }
    }

    /** One of the memory limits, with `rest` still to come. */
    method ApplySize(d: Dir, f: File, size: Option<string>, ghost rest: seq<Limits.Request>) returns (ok: bool)
      modifies system
      ensures Limits.ApplyAll(old(system.k), base, d, Limits.SizeRequests(f, size) + rest) ==
              if ok then Limits.ApplyAll(system.k, base, d, rest) else (system.k, false)
    {
      if size.None? {
        assert Limits.SizeRequests(f, size) + rest == rest;
        return true;
      }
      if !Limits.SizeValid(size.value) {
        return false;
      }
      ok := system.WriteFile(base, d, f, Size(Limits.Text.Trim(size.value)));
      assert (Limits.SizeRequests(f, size) + rest)[1..] == rest;
    }

    /** Create the dir, write the limits, then move the pid in; stop at the first failure. */
    method Enroll(p: Pid, d: Dir, l: CgroupLimits) returns (ok: bool)
      modifies system
      ensures var w := old(World()).(k := MkdirAll(old(system.k), d));
        if !CanMkdir(old(system.k), d) then World() == w && !ok
        else
          var (k, written) := Limits.Apply(w.k, base, d, l);
          && World() == w.(k := if written then Move(k, p, d) else k)
          && ok == (written && CanMove(k, p, d))
    {
      ok := system.CreateDirAll(d);
      if !ok { return; }
      ok := ApplyLimits(d, l);
      if !ok { return; }
      ok := system.MovePid(p, d);
    }

    method Unenroll(p: Pid)
      modifies this`enrolled, this`createdDirs, system
      ensures World() == Enrolment.Unenroll(old(World()), p)
    {
      UnenrollDirect(World(), p);
      if p !in enrolled {
        return;
      }
      var en := enrolled[p];
      enrolled := enrolled - {p};
      var _ := system.MovePid(p, en.origin);
      PruneDir(en.dir);
      Persist();
    }

    /** Reconcile one process with its desired limits. */
    method SyncPid(p: Pid, key: string, limits: Option<CgroupLimits>)
      modifies this`enrolled, this`createdDirs, system
      ensures World() == Enrolment.SyncPid(old(World()), p, key, limits)
    {
      SyncDirect(World(), p, key, limits);
      if base.None? {
        return;
      }
      if limits.None? {
        UnenrollDirect(World(), p);
        Unenroll(p);
        return;
      }
      var l := limits.value;
      var d := Target(base.value, key, l);
      if p in enrolled && enrolled[p].dir == d {
        // Same target: rewrite only on a change, or after a re-assertion reset the values.
        if enrolled[p].limits != l || controllersReasserted {
          var _ := ApplyLimits(d, l);
          enrolled := enrolled[p := enrolled[p].(limits := l)];
        }
        return;
      }
      UnenrollDirect(World(), p);
      Unenroll(p);
      // Where the pid lives now, before the move; inside a managed dir the state file knows better.
      ghost var w := World();
      var origin := OriginFor(World(), p);
      var ok := Enroll(p, d, l);
      if !ok {
        return;
      }
      enrolled := enrolled[p := Enrolled(d, origin, l)];
      createdDirs := createdDirs + {d};
      Persist();
      assert World() == Joined(w, p, d, l);
    }

    method Forget(p: Pid)
      modifies this`enrolled, this`createdDirs, system
      ensures World() == Enrolment.Forget(old(World()), p)
    {
      ForgetDirect(World(), p);
      if p in enrolled {
        var en := enrolled[p];
        enrolled := enrolled - {p};
        PruneDir(en.dir);
        Persist();
      }
    }

    /** Release every process.  `order` is the order in which the table happened to be visited. */
    method Shutdown() returns (ghost order: seq<Pid>)
      modifies this`enrolled, this`createdDirs, system
      ensures forall p :: p in order <==> p in old(enrolled)
      ensures World() == Enrolment.Shutdown(old(World()), order)
    {
      var pids := enrolled.Keys;
      order := [];
      ghost var start := World();
      while pids != {}
        invariant pids <= start.enrolled.Keys
        invariant forall p :: p in order <==> p in start.enrolled && p !in pids
        invariant World() == UnenrollAll(start, order)
        decreases |pids|
      {
        var p :| p in pids;
        pids := pids - {p};
        UnenrollAllAppend(start, order, p);
        Unenroll(p);
        order := order + [p];
      }
      RemoveStateFile();
    }

    method ParkPid(p: Pid)
      requires base.Some?
      modifies system
      ensures World() == StrayMove(old(World()), p)
    {
      var stray := StrayDir(base.value);
      var _ := system.CreateDirAll(stray);
      var _ := system.MovePid(p, stray);
    }

    /** Park the strays of one dir, visiting `cgroup.procs` in whatever order the kernel lists it. */
    method ParkStrays(critical: set<Pid>, d: Dir)
      requires base.Some?
      modifies system
      ensures World() == MoveStrays(old(World()), critical, d)
    {
      ghost var w := World();
      ghost var strays := Strays(w, critical, d);
      ghost var parked: set<Pid> := {};
      var procs := Procs(system.k, d);
      while procs != {}
        invariant procs <= Procs(w.k, d) && parked !! procs && parked <= strays <= parked + procs
        invariant World() == ParkSome(w, parked)
        decreases |procs|
      {
        var p :| p in procs;
        procs := procs - {p};
        ParkedElsewhere(w, parked, p);
        if p !in enrolled && system.k.at[p] == d && p !in critical {
          ParkOneMore(w, parked, p);
          ParkPid(p);
          parked := parked + {p};
        }
      }
      assert parked == strays;
    }

    /** Park strays, prune, and adopt what an earlier daemon left.  `critical` says which processes are
        desktop-critical; `order` is the order in which the created dirs happened to be visited. */
    method SweepStrays(critical: set<Pid>) returns (ghost order: seq<Dir>)
      modifies this`createdDirs, system
      ensures Enumerates(order, old(createdDirs))
      ensures World() == Sweep(old(World()), critical, order)
    {
      order := [];
      var managed := createdDirs;
      ghost var start := World();
      if base.None? {
        order := SomeOrder(managed);
        return;
      }
      while managed != {}
        invariant managed <= start.created
        invariant Enumerates(order, start.created - managed)
        invariant World() == SweepDirs(start, critical, order)
        decreases |managed|
      {
        var d :| d in managed;
        managed := managed - {d};
        SweepDirsAppend(start, critical, order, d);
        order := order + [d];
        if d in system.k.dirs {
          ParkStrays(critical, d);
          PruneDir(d);
          PruneDir(StrayDir(base.value));
        }
      }
      AdoptLeftBehind();
    }

    method AdoptLeftBehind()
      requires base.Some?
      modifies this`createdDirs, system
      ensures World() == AdoptDirs(old(World()), Unadopted(old(World())))
    {
      ghost var start := World();
      var entries := set d | d in system.k.dirs && IsNwChild(base.value, d);
      ghost var all := Unadopted(start);
      ghost var done: set<Dir> := {};
      AdoptNothing(start);
      while entries != {}
        invariant done <= all && forall d :: d in all <==> d in done || (d in entries && d !in start.created)
        invariant entries !! done && forall d | d in entries :: d in start.k.dirs && IsNwChild(base.value, d)
        invariant World() == AdoptDirs(start, done)
        decreases |entries|
      {
        var d :| d in entries;
        entries := entries - {d};
        if d !in createdDirs {
          AdoptOneMore(start, done, d);
          AdoptDir(d);
          done := done + {d};
        }
      }
      assert done == all;
    }

    /** Take a dir over, unless it is empty: then it goes. */
    method AdoptDir(d: Dir)
      modifies this`createdDirs, system
      ensures World() == Prune(old(World()).(created := old(createdDirs) + {d}), d)
    {
      createdDirs := createdDirs + {d};
      PruneDir(d);
    }
  }

  lemma {:induction false} UnenrollAllAppend(w: World, order: seq<Pid>, p: Pid)
    ensures UnenrollAll(w, order + [p]) == Enrolment.Unenroll(UnenrollAll(w, order), p)
    decreases order
  {
    if order == [] {
      assert order + [p] == [p] && [p][1..] == [];
    } else {
      assert (order + [p])[0] == order[0] && (order + [p])[1..] == order[1..] + [p];
      UnenrollAllAppend(Enrolment.Unenroll(w, order[0]), order[1..], p);
    }
  }

  lemma {:induction false} SweepDirsAppend(w: World, critical: set<Pid>, order: seq<Dir>, d: Dir)
    requires w.base.Some?
    ensures SweepDirs(w, critical, order + [d]) == SweepDir(SweepDirs(w, critical, order), critical, d)
    decreases order
  {
    if order == [] {
      assert order + [d] == [d] && [d][1..] == [];
    } else {
      assert (order + [d])[0] == order[0] && (order + [d])[1..] == order[1..] + [d];
      SweepDirsAppend(SweepDir(w, critical, order[0]), critical, order[1..], d);
    }
  }
}
