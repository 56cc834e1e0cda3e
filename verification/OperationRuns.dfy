/** Every operation of the manager is a run of the machine of module CrashSafety, made of the daemon's own steps:
    so what holds of all runs holds of all sequences of calls, killed anywhere. */
module OperationRuns {
  import opened Wrappers
  import opened Config
  import opened Cgroupfs
  import opened Enrolment
  import opened CrashSafety
  import opened Sweeping
  import opened SelfHealing

  lemma {:induction false} RunAppend(m: Machine, xs: seq<Event>, ys: seq<Event>)
    requires CanRun(m, xs) && CanRun(Run(m, xs), ys)
    ensures CanRun(m, xs + ys) && Run(m, xs + ys) == Run(Run(m, xs), ys)
    decreases xs
  {
    if xs == [] {
      assert xs + ys == ys;
    } else {
      RunAppend(Next(m, xs[0]), xs[1..], ys);
      assert (xs + ys)[0] == xs[0] && (xs + ys)[1..] == xs[1..] + ys;
    }
  }

  lemma RunOne(m: Machine, e: Event)
    requires Enabled(m, e)
    ensures CanRun(m, [e]) && Run(m, [e]) == Next(m, e)
  {
    assert [e][1..] == [];
  }

  /** Only the daemon's own steps: no kill, no other process. */
  ghost predicate OwnSteps(es: seq<Event>) {
    forall e | e in es ::
      e.MicroStep? || e.BeginSync? || e.BeginForget? || e.Relocate? || e.PruneDir? || e.Adopt? || e.AssertControllers?
      || e.SetReasserted? || e.DropStateFile?
  }

  /** The machine state with the manager and kernel at `w`, between two operations. */
  function At(m: Machine, w: World): Machine { m.(w := w, step := Idle) }

  /** `es` leads from `w` to `w'` by the daemon's own steps. */
  ghost predicate Leads(m: Machine, w: World, es: seq<Event>, w': World) {
    OwnSteps(es) && CanRun(At(m, w), es) && Run(At(m, w), es) == At(m, w')
  }

  lemma Compose(m: Machine, w0: World, xs: seq<Event>, w1: World, ys: seq<Event>, w2: World)
    requires Leads(m, w0, xs, w1) && Leads(m, w1, ys, w2)
    ensures Leads(m, w0, xs + ys, w2)
  {
    RunAppend(At(m, w0), xs, ys);
  }

  lemma PruneRun(m: Machine, w: World, d: Dir)
    requires d in m.zone
    ensures Leads(m, w, [PruneDir(d)], Prune(w, d))
  {
    RunOne(At(m, w), PruneDir(d));
  }

  lemma AdoptOneRun(m: Machine, w: World, d: Dir)
    requires d in m.zone
    ensures Leads(m, w, [Adopt(d)], Prune(w.(created := w.created + {d}), d))
  {
    RunOne(At(m, w), Adopt(d));
  }

  lemma {:induction false} ParkRun(m: Machine, w: World, who: set<Pid>) returns (es: seq<Event>)
    requires w.base.Some? && StrayDir(w.base.value) in m.zone
    requires forall p | p in who :: p in w.k.at && p !in w.enrolled && w.k.at[p] in m.zone
    ensures Leads(m, w, es, ParkSome(w, who))
    decreases |who|
  {
    if who == {} {
      es := [];
    } else {
      var p :| p in who;
      var fewer := who - {p};
      var xs := ParkRun(m, w, fewer);
      var w1 := ParkSome(w, fewer);
      RunOne(At(m, w1), Relocate(p));
      ParkOneMore(w, fewer, p);
      assert fewer + {p} == who;
      Compose(m, w, xs, w1, [Relocate(p)], ParkSome(w, who));
      es := xs + [Relocate(p)];
    }
  }

  lemma SweepDirRun(m: Machine, w: World, critical: set<Pid>, d: Dir) returns (es: seq<Event>)
    requires w.base.Some? && StrayDir(w.base.value) in m.zone && d in m.zone
    ensures Leads(m, w, es, SweepDir(w, critical, d))
  {
    if d !in w.k.dirs {
      es := [];
    } else {
      var xs := ParkRun(m, w, Strays(w, critical, d));
      var w1 := MoveStrays(w, critical, d);
      var w2 := Prune(w1, d);
      var stray := StrayDir(w.base.value);
      PruneRun(m, w1, d);
      PruneRun(m, w2, stray);
      Compose(m, w, xs, w1, [PruneDir(d)], w2);
      Compose(m, w, xs + [PruneDir(d)], w2, [PruneDir(stray)], Prune(w2, stray));
      es := xs + [PruneDir(d)] + [PruneDir(stray)];
    }
  }

  lemma {:induction false} SweepDirsRun(m: Machine, w: World, critical: set<Pid>, order: seq<Dir>) returns (es: seq<Event>)
    requires w.base.Some? && StrayDir(w.base.value) in m.zone && forall d | d in order :: d in m.zone
    ensures Leads(m, w, es, SweepDirs(w, critical, order))
    decreases order
  {
    if order == [] {
      es := [];
    } else {
      var w1 := SweepDir(w, critical, order[0]);
      var xs := SweepDirRun(m, w, critical, order[0]);
      var ys := SweepDirsRun(m, w1, critical, order[1..]);
      Compose(m, w, xs, w1, ys, SweepDirs(w, critical, order));
      es := xs + ys;
    }
  }

  lemma AdoptStep(m: Machine, w: World, xs: seq<Event>, w1: World, d: Dir)
    requires d in m.zone && Leads(m, w, xs, w1)
    ensures Leads(m, w, xs + [Adopt(d)], Prune(w1.(created := w1.created + {d}), d))
  {
    AdoptOneRun(m, w1, d);
    Compose(m, w, xs, w1, [Adopt(d)], Prune(w1.(created := w1.created + {d}), d));
  }

  lemma {:induction false} AdoptRun(m: Machine, w: World, some: set<Dir>) returns (es: seq<Event>)
    requires forall d | d in some :: d in m.zone && d in w.k.dirs && d !in w.created
    requires forall c, d | c in some && d in some :: !(c < d)
    ensures Leads(m, w, es, AdoptDirs(w, some))
    decreases |some|
  {
    if some == {} {
      es := [];
      AdoptNothing(w);
    } else {
      var d :| d in some;
      var fewer := some - {d};
      assert fewer + {d} == some;
      var xs := AdoptRun(m, w, fewer);
      AdoptOneMore(w, fewer, d);
      AdoptStep(m, w, xs, AdoptDirs(w, fewer), d);
      es := xs + [Adopt(d)];
    }
  }

  /** A whole sweep is a run of the daemon's own steps. */
  lemma SweepIsRun(m: Machine, w: World, critical: set<Pid>, order: seq<Dir>) returns (es: seq<Event>)
    requires w.base.Some? && StrayDir(w.base.value) in m.zone && forall d | d in order :: d in m.zone
    requires forall d | IsNwChild(w.base.value, d) && d in w.k.dirs :: d in m.zone
    ensures Leads(m, w, es, Sweep(w, critical, order))
  {
    var xs := SweepDirsRun(m, w, critical, order);
    var w1 := SweepDirs(w, critical, order);
    NoNewNwChildren(w, critical, order);
    var ys := AdoptRun(m, w1, Unadopted(w1));
    Compose(m, w, xs, w1, ys, Sweep(w, critical, order));
    es := xs + ys;
  }

  lemma {:induction false} NoNewNwChildren(w: World, critical: set<Pid>, order: seq<Dir>)
    requires w.base.Some?
    ensures forall d | IsNwChild(w.base.value, d) && d in SweepDirs(w, critical, order).k.dirs :: d in w.k.dirs
    decreases order
  {
    if order != [] {
      var stray := StrayDir(w.base.value);
      StrayIsNotNw(w.base.value);
      var w1 := SweepDir(w, critical, order[0]);
      forall d | IsNwChild(w.base.value, d) && d in w1.k.dirs
        ensures d in w.k.dirs
      {
        assert forall i | 0 <= i <= |stray| :: stray[..i] == d ==> i == |stray| && d == stray;
      }
      NoNewNwChildren(w1, critical, order[1..]);
    }
  }

  lemma {:induction false} FinishRun(m: Machine) returns (es: seq<Event>)
    ensures OwnSteps(es) && CanRun(m, es) && Run(m, es) == At(m, Finish(m.w, m.step))
    decreases Remaining(m.step)
  {
    es := [];
    if m.step != Idle {
      var rest := FinishRun(Next(m, MicroStep));
      RunOne(m, MicroStep);
      RunAppend(m, [MicroStep], rest);
      es := [MicroStep] + rest;
    }
  }

  lemma SyncIsRun(m: Machine, w: World, p: Pid, key: string, limits: Option<CgroupLimits>) returns (es: seq<Event>)
    requires Enabled(At(m, w), BeginSync(p, key, limits))
    ensures Leads(m, w, es, SyncPid(w, p, key, limits))
  {
    var begin := BeginSync(p, key, limits);
    RunOne(At(m, w), begin);
    var rest := FinishRun(Next(At(m, w), begin));
    RunAppend(At(m, w), [begin], rest);
    es := [begin] + rest;
  }

  lemma ForgetIsRun(m: Machine, w: World, p: Pid) returns (es: seq<Event>)
    requires p !in w.k.at
    ensures Leads(m, w, es, Forget(w, p))
  {
    RunOne(At(m, w), BeginForget(p));
    var rest := FinishRun(Next(At(m, w), BeginForget(p)));
    RunAppend(At(m, w), [BeginForget(p)], rest);
    es := [BeginForget(p)] + rest;
  }

  // ----- whole polls -----

  /** The dirs a poll is about to act on are the daemon's: the targets of the rules, the dirs it created, the strays
      dir, and whatever `nw-` dirs the sweep will find. */
  ghost predicate PollInZone(m: Machine, w: World, wants: seq<Want>, order: seq<Dir>) {
    w.base.Some? ==>
      && (forall x | x in wants && x.limits.Some? :: Target(w.base.value, x.key, x.limits.value) in m.zone)
      && StrayDir(w.base.value) in m.zone && (forall d | d in order :: d in m.zone)
      && forall d | IsNwChild(w.base.value, d) && d in SyncAll(EnsureControllersOf(w), wants).k.dirs :: d in m.zone
  }

  lemma SyncKeepsBase(w: World, x: Want)
    ensures SyncPid(w, x.pid, x.key, x.limits).base == w.base
  {
    SyncDirect(w, x.pid, x.key, x.limits);
  }

  lemma {:induction false} SyncAllRun(m: Machine, w: World, wants: seq<Want>) returns (es: seq<Event>)
    requires w.base.Some? ==> forall x | x in wants && x.limits.Some? :: Target(w.base.value, x.key, x.limits.value) in m.zone
    ensures Leads(m, w, es, SyncAll(w, wants)) && SyncAll(w, wants).base == w.base
    decreases wants
  {
    if wants == [] {
      es := [];
    } else {
      var x := wants[0];
      assert x in wants;
      var w1 := SyncPid(w, x.pid, x.key, x.limits);
      SyncKeepsBase(w, x);
      var xs := SyncIsRun(m, w, x.pid, x.key, x.limits);
      var ys := SyncAllRun(m, w1, wants[1..]);
      Compose(m, w, xs, w1, ys, SyncAll(w, wants));
      es := xs + ys;
    }
  }

  lemma SweepRun(m: Machine, w: World, critical: set<Pid>, order: seq<Dir>) returns (es: seq<Event>)
    requires w.base.Some? ==>
      && StrayDir(w.base.value) in m.zone && (forall d | d in order :: d in m.zone)
      && forall d | IsNwChild(w.base.value, d) && d in w.k.dirs :: d in m.zone
    ensures Leads(m, w, es, Sweep(w, critical, order))
  {
    if w.base.Some? {
      es := SweepIsRun(m, w, critical, order);
    } else {
      es := [];
    }
  }

  lemma ForgetMovesNobody(w: World, p: Pid)
    ensures Forget(w, p).k.at == w.k.at
  {
    ForgetDirect(w, p);
  }

  lemma {:induction false} ForgetAllRun(m: Machine, w: World, exited: seq<Pid>) returns (es: seq<Event>)
    requires Exited(w, exited)
    ensures Leads(m, w, es, ForgetAll(w, exited))
    decreases exited
  {
    if exited == [] {
      es := [];
    } else {
      var w1 := Forget(w, exited[0]);
      assert exited[0] in exited;
      ForgetMovesNobody(w, exited[0]);
      var xs := ForgetIsRun(m, w, exited[0]);
      var ys := ForgetAllRun(m, w1, exited[1..]);
      Compose(m, w, xs, w1, ys, ForgetAll(w, exited));
      es := xs + ys;
    }
  }

  /** The end of a poll: clear the flag, forget the exited. */
  lemma EndOfPollRun(m: Machine, w: World, exited: seq<Pid>) returns (es: seq<Event>)
    requires Exited(w, exited)
    ensures Leads(m, w, es, ForgetAll(w.(reasserted := false), exited))
  {
    var w1 := w.(reasserted := false);
    RunOne(At(m, w), SetReasserted(false));
    var ys := ForgetAllRun(m, w1, exited);
    Compose(m, w, [SetReasserted(false)], w1, ys, ForgetAll(w1, exited));
    es := [SetReasserted(false)] + ys;
  }

  /** A whole poll (controllers, reconciles, sweep, flag, exits) is a run of the daemon's own steps. */
  lemma PollIsRun(m: Machine, w: World, wants: seq<Want>, critical: set<Pid>, order: seq<Dir>, exited: seq<Pid>)
    returns (es: seq<Event>)
    requires PollInZone(m, w, wants, order) && Exited(w, exited)
    ensures Leads(m, w, es, Poll(w, wants, critical, order, exited))
  {
    var w1 := EnsureControllersOf(w);
    var w2 := SyncAll(w1, wants);
    var w3 := Sweep(w2, critical, order);
    RunOne(At(m, w), AssertControllers);
    var syncs := SyncAllRun(m, w1, wants);
    Compose(m, w, [AssertControllers], w1, syncs, w2);
    var sweep := SweepRun(m, w2, critical, order);
    Compose(m, w, [AssertControllers] + syncs, w2, sweep, w3);
    SyncAllEnrolsOnly(w1, wants);
    SweepSpares(w2, critical, order);
    var end := EndOfPollRun(m, w3, exited);
    es := [AssertControllers] + syncs + sweep + end;
    Compose(m, w, [AssertControllers] + syncs + sweep, w3, end, Poll(w, wants, critical, order, exited));
  }

  // ----- shutdown and start -----

  lemma {:induction false} UnenrollAllRun(m: Machine, w: World, order: seq<Pid>) returns (es: seq<Event>)
    requires w.base.Some? || w.enrolled == map[]
    ensures Leads(m, w, es, UnenrollAll(w, order))
    ensures forall p | p in UnenrollAll(w, order).enrolled :: p in w.enrolled && p !in order
    decreases order
  {
    if order == [] {
      es := [];
    } else {
      var p := order[0];
      var w1 := Unenroll(w, p);
      UnenrollDirect(w, p);
      SyncDirect(w, p, "", None);
      var xs := SyncIsRun(m, w, p, "", None);
      var ys := UnenrollAllRun(m, w1, order[1..]);
      Compose(m, w, xs, w1, ys, UnenrollAll(w, order));
      es := xs + ys;
    }
  }

  /** A shutdown, in any order that covers the table, is a run of the daemon's own steps. */
  lemma ShutdownIsRun(m: Machine, w: World, order: seq<Pid>) returns (es: seq<Event>)
    requires (w.base.Some? || w.enrolled == map[]) && forall p | p in w.enrolled :: p in order
    ensures Leads(m, w, es, Shutdown(w, order))
  {
    var w1 := UnenrollAll(w, order);
    var xs := UnenrollAllRun(m, w, order);
    assert w1.enrolled == map[];
    RunOne(At(m, w1), DropStateFile);
    Compose(m, w, xs, w1, [DropStateFile], Shutdown(w, order));
    es := xs + [DropStateFile];
  }

  /** A daemon start after a kill at any micro-step: recovery and the first assertion of the controllers, as a run. */
  lemma StartIsRun(m: Machine, base: Option<Dir>) returns (es: seq<Event>)
    ensures OwnSteps(es) && CanRun(m, [Kill(base)] + es)
    ensures Run(m, [Kill(base)] + es) == At(Next(m, Kill(base)), EnsureControllersOf(Recover(base, m.w.k)))
  {
    var m1 := Next(m, Kill(base));
    var w1 := Recover(base, m.w.k);
    RunOne(m, Kill(base));
    var rest := FinishRun(m1);
    RunOne(At(m1, w1), AssertControllers);
    RunAppend(m1, rest, [AssertControllers]);
    es := rest + [AssertControllers];
    RunAppend(m, [Kill(base)], es);
  }

  // ----- killed anywhere -----

  lemma {:induction false} Prefix(m: Machine, es: seq<Event>, n: nat)
    requires CanRun(m, es) && n <= |es|
    ensures CanRun(m, es[..n])
    decreases es
  {
    if n > 0 {
      Prefix(Next(m, es[0]), es[1..], n - 1);
      assert es[..n][1..] == es[1..][..n - 1];
    }
  }

  lemma {:induction false} OwnStepsKeepHomes(m: Machine, es: seq<Event>)
    requires OwnSteps(es) && CanRun(m, es)
    ensures Run(m, es).home == m.home && Run(m, es).crashes == m.crashes
    decreases es
  {
    if es != [] {
      assert es[0] in es;
      OwnStepsKeepHomes(Next(m, es[0]), es[1..]);
    }
  }

  /** After a run and some of the daemon's own steps, a kill costs nobody its home but the one caught unsaved. */
  lemma KilledAmongOwnSteps(m: Machine, before: seq<Event>, es: seq<Event>, base: Option<Dir>)
    requires Initial(m) && CanRun(m, before) && OwnSteps(es) && CanRun(Run(m, before), es)
    ensures var r := Run(Run(m, before), es); var w := Recover(base, r.w.k);
      && |Unsaved(r.step)| <= 1 && w.enrolled == map[] && Decode(w.k.stateFile) == map[]
      && forall p | p in Run(m, before).home :: In(w.k.at, p, Run(m, before).home[p]) <==> p !in Unsaved(r.step)
  {
    RunAppend(m, before, es);
    OwnStepsKeepHomes(Run(m, before), es);
    CrashRecovery(m, before + es, base);
  }

  /** The main loop killed anywhere in a poll: the poll is a run of micro-steps, and after a kill at any of them the next
      daemon's recovery brings every live process with a home back there, except exactly the one whose enrolment had
      moved it but not saved it. */
  lemma PollKilledAnywhere(
    m: Machine, before: seq<Event>, wants: seq<Want>, critical: set<Pid>, order: seq<Dir>, exited: seq<Pid>, base: Option<Dir>)
    returns (es: seq<Event>)
    requires Initial(m) && CanRun(m, before) && Run(m, before).step == Idle
    requires var r := Run(m, before); PollInZone(r, r.w, wants, order) && Exited(r.w, exited)
    ensures var r := Run(m, before); Leads(r, r.w, es, Poll(r.w, wants, critical, order, exited))
    ensures forall n | 0 <= n <= |es| :: var r := Run(m, before);
              CanRun(r, es[..n]) &&
              var q := Run(r, es[..n]); var w := Recover(base, q.w.k);
              && |Unsaved(q.step)| <= 1 && w.enrolled == map[] && Decode(w.k.stateFile) == map[]
              && forall p | p in r.home :: In(w.k.at, p, r.home[p]) <==> p !in Unsaved(q.step)
  {
    var r := Run(m, before);
    es := PollIsRun(r, r.w, wants, critical, order, exited);
    assert At(r, r.w) == r;
    forall n | 0 <= n <= |es|
      ensures CanRun(r, es[..n]) &&
              var q := Run(r, es[..n]); var w := Recover(base, q.w.k);
              && |Unsaved(q.step)| <= 1 && w.enrolled == map[] && Decode(w.k.stateFile) == map[]
              && forall p | p in r.home :: In(w.k.at, p, r.home[p]) <==> p !in Unsaved(q.step)
    {
      Prefix(r, es, n);
      KilledAmongOwnSteps(m, before, es[..n], base);
    }
  }
}
