/** `sweep_strays`: park processes the daemon did not enrol, remove empty managed dirs, and adopt the
    `nw-*` dirs an earlier daemon left behind. */
module Sweeping {
  import opened Cgroupfs
  import opened Enrolment

  /** The processes of `d` that a sweep may move: neither enrolled nor critical to the desktop. */
  function Strays(w: World, critical: set<Pid>, d: Dir): set<Pid> {
    Procs(w.k, d) - w.enrolled.Keys - critical
  }

  function Parked(k: Kernel, who: set<Pid>, stray: Dir): map<Pid, Dir> {
    map p | p in k.at :: if p in who && CanMove(k, p, stray) then stray else k.at[p]
  }

  function MoveStrays(w: World, critical: set<Pid>, d: Dir): World
    requires w.base.Some?
  {
    var stray := StrayDir(w.base.value);
    var who := Strays(w, critical, d);
    if who == {} then w
    else var k := MkdirAll(w.k, stray); w.(k := k.(at := Parked(k, who, stray)))
  }

  function SweepDir(w: World, critical: set<Pid>, d: Dir): World
    requires w.base.Some?
  {
    if d !in w.k.dirs then w
    else Prune(Prune(MoveStrays(w, critical, d), d), StrayDir(w.base.value))
  }

  function SweepDirs(w: World, critical: set<Pid>, order: seq<Dir>): (w': World)
    requires w.base.Some?
    ensures w'.base == w.base
    decreases order
  {
    if order == [] then w else SweepDirs(SweepDir(w, critical, order[0]), critical, order[1..])
  }

  function Unadopted(w: World): set<Dir>
    requires w.base.Some?
  {
    set d | d in w.k.dirs && IsNwChild(w.base.value, d) && d !in w.created
  }

  /** Adopt `some` of the left-behind dirs, except that empty ones are removed instead. */
  function AdoptDirs(w: World, some: set<Dir>): World {
    var gone := set d | d in some && Removable(w.k, d);
    w.(created := w.created + (some - gone),
       k := w.k.(dirs := w.k.dirs - gone, files := map e | e in w.k.files && e.0 !in gone :: w.k.files[e]))
  }

  function Sweep(w: World, critical: set<Pid>, order: seq<Dir>): World {
    if w.base.None? then w
    else
      var w' := SweepDirs(w, critical, order);
      AdoptDirs(w', Unadopted(w'))
  }

  /** `order` is some enumeration of the created dirs, each once (the order of a HashSet). */
  ghost predicate Enumerates(order: seq<Dir>, dirs: set<Dir>) {
    (forall d :: d in order <==> d in dirs) && forall i, j | 0 <= i < j < |order| :: order[i] != order[j]
  }

  ghost function SomeOrder(s: set<Dir>): (order: seq<Dir>)
    ensures Enumerates(order, s)
  {
    if s == {} then [] else var d :| d in s; [d] + SomeOrder(s - {d})
  }

  // ----- what a sweep leaves alone -----

  ghost predicate Spares(w: World, w': World, critical: set<Pid>) {
    && w'.base == w.base && w'.enrolled == w.enrolled && w'.reasserted == w.reasserted
    && w'.k.at.Keys == w.k.at.Keys
    && w'.k.stateFile == w.k.stateFile && w'.k.deny == w.k.deny
    && (forall p | p in w.k.at && (p in w.enrolled || p in critical) :: w'.k.at[p] == w.k.at[p])
    && (forall p | p in w.k.at :: w'.k.at[p] == w.k.at[p] || (w.base.Some? && w'.k.at[p] == StrayDir(w.base.value)))
  }

  lemma PruneSpares(w: World, critical: set<Pid>, d: Dir)
    ensures Spares(w, Prune(w, d), critical)
  {
  }

  lemma MoveStraysSpares(w: World, critical: set<Pid>, d: Dir)
    requires w.base.Some?
    ensures Spares(w, MoveStrays(w, critical, d), critical)
  {
  }

  lemma SweepDirSpares(w: World, critical: set<Pid>, d: Dir)
    requires w.base.Some?
    ensures Spares(w, SweepDir(w, critical, d), critical)
  {
    var w1 := MoveStrays(w, critical, d);
    MoveStraysSpares(w, critical, d);
    PruneSpares(w1, critical, d);
    PruneSpares(Prune(w1, d), critical, StrayDir(w.base.value));
  }

  lemma {:induction false} SweepDirsSpare(w: World, critical: set<Pid>, order: seq<Dir>)
    requires w.base.Some?
    ensures Spares(w, SweepDirs(w, critical, order), critical)
    decreases order
  {
    if order != [] {
      SweepDirSpares(w, critical, order[0]);
      SweepDirsSpare(SweepDir(w, critical, order[0]), critical, order[1..]);
    }
  }

  /** A sweep never moves an enrolled or desktop-critical process, never changes the table or the state file,
      and moves others only to the strays dir. */
  lemma SweepSpares(w: World, critical: set<Pid>, order: seq<Dir>)
    ensures Spares(w, Sweep(w, critical, order), critical)
  {
    if w.base.Some? {
      SweepDirsSpare(w, critical, order);
    }
  }

  lemma StrayIsNotNw(b: Dir)
    ensures !IsNwChild(b, StrayDir(b))
  {
    assert StrayDir(b)[|b|] == "_strays";
    assert "nw-"[0] != "_strays"[0];
  }

  lemma AdoptNothing(w: World)
    ensures AdoptDirs(w, {}) == w
  {
    assert (map e | e in w.k.files && e.0 !in {} :: w.k.files[e]) == w.k.files;
  }

  // ----- one process, one dir at a time -----

  /** Parking part of the strays of one dir. */
  function ParkSome(w: World, who: set<Pid>): World
    requires w.base.Some?
  {
    if who == {} then w
    else
      var k := MkdirAll(w.k, StrayDir(w.base.value));
      w.(k := k.(at := Parked(k, who, StrayDir(w.base.value))))
  }

  lemma ParkedElsewhere(w: World, parked: set<Pid>, p: Pid)
    requires w.base.Some? && p in w.k.at && p !in parked
    ensures var w' := ParkSome(w, parked); w'.enrolled == w.enrolled && p in w'.k.at && w'.k.at[p] == w.k.at[p]
  {
  }

  function StrayMove(w: World, p: Pid): World
    requires w.base.Some?
  {
    var stray := StrayDir(w.base.value);
    w.(k := Move(MkdirAll(w.k, stray), p, stray))
  }

  lemma MkdirTwice(k: Kernel, at: map<Pid, Dir>, d: Dir)
    ensures MkdirAll(MkdirAll(k, d).(at := at), d) == MkdirAll(k, d).(at := at)
  {
    assert d == d[..|d|];
  }

  lemma ParkedOneMore(k: Kernel, fewer: set<Pid>, p: Pid, stray: Dir)
    requires p in k.at && p !in fewer
    ensures Move(k.(at := Parked(k, fewer, stray)), p, stray) == k.(at := Parked(k, fewer + {p}, stray))
  {
    assert Move(k.(at := Parked(k, fewer, stray)), p, stray).at == Parked(k, fewer + {p}, stray);
  }

  lemma ParkOneMore(w: World, fewer: set<Pid>, p: Pid)
    requires w.base.Some? && p in w.k.at && p !in fewer
    ensures StrayMove(ParkSome(w, fewer), p) == ParkSome(w, fewer + {p})
  {
    var stray := StrayDir(w.base.value);
    var k := MkdirAll(w.k, stray);
    var at := if fewer == {} then w.k.at else Parked(k, fewer, stray);
    assert at == Parked(k, fewer, stray);
    ParkedOneMore(k, fewer, p, stray);
    MkdirTwice(w.k, at, stray);
    assert MkdirAll(ParkSome(w, fewer).k, stray) == k.(at := at);
  }

  lemma AdoptionBlocksNobody(w: World, fewer: set<Dir>, d: Dir)
    requires d !in fewer && d in w.k.dirs && forall c | c in fewer :: !(d < c)
    ensures Removable(AdoptDirs(w, fewer).k, d) <==> Removable(w.k, d)
  {
    var w1 := AdoptDirs(w, fewer);
    assert Procs(w1.k, d) == Procs(w.k, d);
    assert forall c | c in w.k.dirs && d < c :: c in w1.k.dirs;
  }

  lemma AdoptOneMore(w: World, fewer: set<Dir>, d: Dir)
    requires d !in fewer && d in w.k.dirs && d !in w.created
    requires forall c | c in fewer :: !(d < c)
    ensures var w1 := AdoptDirs(w, fewer); Prune(w1.(created := w1.created + {d}), d) == AdoptDirs(w, fewer + {d})
  {
    var w1 := AdoptDirs(w, fewer);
    AdoptionBlocksNobody(w, fewer, d);
    var w2 := AdoptDirs(w, fewer + {d});
    var l := Prune(w1.(created := w1.created + {d}), d);
    assert l.k.dirs == w2.k.dirs;
    assert l.k.files == w2.k.files;
    assert l.created == w2.created;
  }
}
