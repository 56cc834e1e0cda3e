/** The cgroup manager's operations as micro-steps over its memory and the kernel, so that the daemon can be
    killed between any two of them.  `Finish` runs an operation to its end. */
module Enrolment {
  import opened Wrappers
  import opened Config
  import opened Cgroupfs
  import Limits
  import Ascend

  datatype Enrolled = Enrolled(dir: Dir, origin: Dir, limits: CgroupLimits)

  /** The manager's memory beside the kernel it acts on. */
  datatype World = World(
    base: Option<Dir>,
    enrolled: map<Pid, Enrolled>,
    created: set<Dir>,
    reasserted: bool,
    k: Kernel)

  /** What an unenrol is part of: a call of its own, or the first half of a switch between managed dirs. */
  datatype After = Return | Reenrol(pid: Pid, dir: Dir, limits: CgroupLimits)

  /** The next micro-step of the operation in progress. */
  datatype Step =
    | Idle
    // unenrol and forget, the table entry being gone from memory
    | MoveBack(pid: Pid, entry: Enrolled, after: After)
    | PruneOld(pid: Pid, entry: Enrolled, after: After)
    | PersistOld(pid: Pid, entry: Enrolled, after: After)
    // enrol
    | ReadOrigin(pid: Pid, dir: Dir, limits: CgroupLimits)
    | MakeDir(pid: Pid, dir: Dir, limits: CgroupLimits, origin: Dir)
    | WriteLimits(pid: Pid, dir: Dir, limits: CgroupLimits, origin: Dir)
    | MoveIn(pid: Pid, dir: Dir, limits: CgroupLimits, origin: Dir)
    | Insert(pid: Pid, dir: Dir, limits: CgroupLimits, origin: Dir)
    | Persist(pid: Pid)
    // crash recovery over the table read from the state file
    | RecoverMove(todo: seq<Pid>, table: map<Pid, (Dir, Dir)>)
    | RecoverPrune(todo: seq<Pid>, table: map<Pid, (Dir, Dir)>)

  function SanitizeChar(c: char): char {
    if 'a' <= c <= 'z' || 'A' <= c <= 'Z' || '0' <= c <= '9' || c == '-' || c == '_' || c == '.' then c else '_'
  }

  /** Rule name to directory name; not injective. */
  function Sanitize(key: string): string {
    seq(|key|, i requires 0 <= i < |key| => SanitizeChar(key[i]))
  }

  function Target(base: Dir, key: string, l: CgroupLimits): Dir {
    match l.path
    case Some(d) => d
    case None => base + ["nw-" + Sanitize(key)]
  }

  /** A direct child of the base whose name carries the daemon's prefix. */
  predicate IsNwChild(base: Dir, d: Dir) {
    |d| == |base| + 1 && d[..|base|] == base && "nw-" <= d[|base|]
  }

  predicate IsPlain(c: char) {
    'a' <= c <= 'z' || 'A' <= c <= 'Z' || '0' <= c <= '9' || c == '-' || c == '_' || c == '.'
  }

  /** Without an explicit path a rule's dir is a direct `nw-` child of the base, whatever its name: the component has no
      separator in it and is neither `.` nor `..`, so no name leads out of the base. */
  lemma AutoDirIsNwChild(base: Dir, key: string, l: CgroupLimits)
    requires l.path.None?
    ensures var d := Target(base, key, l);
      && IsNwChild(base, d) && base < d && d[|base|] != "." && d[|base|] != ".."
      && |d[|base|]| == |key| + 3 && forall i | 0 <= i < |d[|base|]| :: IsPlain(d[|base|][i]) && d[|base|][i] != '/'
  {
    var name := "nw-" + Sanitize(key);
    assert Target(base, key, l) == base + [name];
    forall i | 0 <= i < |name|
      ensures IsPlain(name[i])
    {
      if i >= 3 {
        assert name[i] == SanitizeChar(key[i - 3]);
      }
    }
  }

  function StrayDir(base: Dir): Dir { base + ["_strays"] }

  /** The projection that the state file mirrors. */
  function Mirror(enrolled: map<Pid, Enrolled>): map<Pid, (Dir, Dir)> {
    map p | p in enrolled :: (enrolled[p].dir, enrolled[p].origin)
  }

  function SaveState(w: World): World {
    if w.k.deny.stateFile then w else w.(k := w.k.(stateFile := Entries(Mirror(w.enrolled))))
  }

  function RemoveState(w: World): World {
    if w.k.deny.stateFile then w else w.(k := w.k.(stateFile := Absent))
  }

  function Prune(w: World, d: Dir): World {
    if Removable(w.k, d) then w.(k := Rmdir(w.k, d), created := w.created - {d}) else w
  }

  function CgroupOf(k: Kernel, p: Pid): Dir {
    if p in k.at then k.at[p] else []
  }

  /** Where a pid came from: where it lives now, or, found in a managed dir, what the state file says. */
  function OriginFor(w: World, p: Pid): Dir {
    var here := CgroupOf(w.k, p);
    if && w.base.Some? && here != w.base.value && w.base.value <= here
       && (here in w.created || exists q | q in w.enrolled :: w.enrolled[q].dir == here)
       && p in Decode(w.k.stateFile)
    then Decode(w.k.stateFile)[p].1
    else here
  }

  function Then(after: After): Step {
    match after
    case Return => Idle
    case Reenrol(p, d, l) => ReadOrigin(p, d, l)
  }

  function StartUnenroll(w: World, p: Pid, after: After): (World, Step) {
    if p in w.enrolled
    then (w.(enrolled := w.enrolled - {p}), MoveBack(p, w.enrolled[p], after))
    else (w, Then(after))
  }

  /** A process has exited: nothing to move, but its dir may be empty now. */
  function StartForget(w: World, p: Pid): (World, Step) {
    if p in w.enrolled
    then (w.(enrolled := w.enrolled - {p}), PruneOld(p, w.enrolled[p], Return))
    else (w, Idle)
  }

  /** Same dir: limits are rewritten only when they changed, or after the controllers were re-asserted. */
  function Rewrite(w: World, p: Pid, l: CgroupLimits): World
    requires p in w.enrolled
  {
    var en := w.enrolled[p];
    if en.limits != l || w.reasserted
    then w.(k := Limits.Apply(w.k, w.base, en.dir, l).0, enrolled := w.enrolled[p := en.(limits := l)])
    else w
  }

  function StartSync(w: World, p: Pid, key: string, limits: Option<CgroupLimits>): (World, Step) {
    if w.base.None? then (w, Idle)
    else match limits
      case None => StartUnenroll(w, p, Return)
      case Some(l) =>
        var d := Target(w.base.value, key, l);
        if p in w.enrolled && w.enrolled[p].dir == d then (Rewrite(w, p, l), Idle)
        else StartUnenroll(w, p, Reenrol(p, d, l))
  }

  /** A new daemon starts from the kernel alone and recovers before anything else. */
  function StartRecover(base: Option<Dir>, k: Kernel): (World, Step) {
    var w := World(base, map[], {}, false, k);
    match k.stateFile
    case Entries(t) => if |t| == 0 then (w, Idle) else (w, RecoverMove(Ascend.Ascending(t.Keys), t))
    case _ => (RemoveState(w), Idle)
  }

  function Micro(w: World, s: Step): (World, Step)
    requires s != Idle
  {
    match s
    case MoveBack(p, en, after) => (w.(k := Move(w.k, p, en.origin)), PruneOld(p, en, after))
    case PruneOld(p, en, after) => (Prune(w, en.dir), PersistOld(p, en, after))
    case PersistOld(_, _, after) => (SaveState(w), Then(after))
    case ReadOrigin(p, d, l) => (w, MakeDir(p, d, l, OriginFor(w, p)))
    case MakeDir(p, d, l, o) =>
      (w.(k := MkdirAll(w.k, d)), if CanMkdir(w.k, d) then WriteLimits(p, d, l, o) else Idle)
    case WriteLimits(p, d, l, o) =>
      var (k, ok) := Limits.Apply(w.k, w.base, d, l);
      (w.(k := k), if ok then MoveIn(p, d, l, o) else Idle)
    case MoveIn(p, d, l, o) =>
      (w.(k := Move(w.k, p, d)), if CanMove(w.k, p, d) then Insert(p, d, l, o) else Idle)
    case Insert(p, d, l, o) =>
      (w.(enrolled := w.enrolled[p := Enrolled(d, o, l)], created := w.created + {d}), Persist(p))
    case Persist(_) => (SaveState(w), Idle)
    case RecoverMove(todo, t) =>
      if todo == [] then (RemoveState(w), Idle)
      else
        var p := todo[0];
        if p in t && p in w.k.at && w.k.at[p] == t[p].0
        then (w.(k := Move(w.k, p, t[p].1)), RecoverPrune(todo, t))
        else (w, RecoverMove(todo[1..], t))
    case RecoverPrune(todo, t) =>
      if todo != [] && todo[0] in t then (Prune(w, t[todo[0]].0), RecoverMove(todo[1..], t)) else (w, Idle)
  }

  /** How many micro-steps are left at most. */
  function Remaining(s: Step): nat {
    match s
    case Idle => 0
    case Persist(_) => 1
    case Insert(_, _, _, _) => 2
    case MoveIn(_, _, _, _) => 3
    case WriteLimits(_, _, _, _) => 4
    case MakeDir(_, _, _, _) => 5
    case ReadOrigin(_, _, _) => 6
    case PersistOld(_, _, _) => 7
    case PruneOld(_, _, _) => 8
    case MoveBack(_, _, _) => 9
    case RecoverMove(todo, _) => 2 * |todo| + 2
    case RecoverPrune(todo, _) => 2 * |todo| + 1
  }

  /** Run the operation in progress to its end. */
  function Finish(w: World, s: Step): World
    decreases Remaining(s)
  {
    if s == Idle then w else var (w', s') := Micro(w, s); Finish(w', s')
  }

  function SyncPid(w: World, p: Pid, key: string, limits: Option<CgroupLimits>): World {
    var (w', s) := StartSync(w, p, key, limits);
    Finish(w', s)
  }

  function Unenroll(w: World, p: Pid): World {
    var (w', s) := StartUnenroll(w, p, Return);
    Finish(w', s)
  }

  function Forget(w: World, p: Pid): World {
    var (w', s) := StartForget(w, p);
    Finish(w', s)
  }

  function Recover(base: Option<Dir>, k: Kernel): World {
    var (w, s) := StartRecover(base, k);
    Finish(w, s)
  }

  /** Unenrol every pid of `order`, then drop the state file. */
  function UnenrollAll(w: World, order: seq<Pid>): World
    decreases order
  {
    if order == [] then w else UnenrollAll(Unenroll(w, order[0]), order[1..])
  }

  function Shutdown(w: World, order: seq<Pid>): World {
    RemoveState(UnenrollAll(w, order))
  }

  /** Re-assert the controllers; remember that a rewrite is due when `cpu` had gone. */
  function EnsureControllersOf(w: World): World {
    if w.base.None? || w.k.deny.controllers then w
    else w.(k := EnableCpu(w.k, w.base), reasserted := w.reasserted || !w.k.subtreeCpu)
  }

  /** What recovery does for one entry of the table. */
  function RecoverPid(w: World, p: Pid, dir: Dir, origin: Dir): World {
    if p in w.k.at && w.k.at[p] == dir then Prune(w.(k := Move(w.k, p, origin)), dir) else w
  }

  function RecoverPids(w: World, todo: seq<Pid>, t: map<Pid, (Dir, Dir)>): World
    requires forall p | p in todo :: p in t
    decreases todo
  {
    if todo == [] then w else RecoverPids(RecoverPid(w, todo[0], t[todo[0]].0, t[todo[0]].1), todo[1..], t)
  }

  lemma {:induction false} RecoverDirect(w: World, todo: seq<Pid>, t: map<Pid, (Dir, Dir)>)
    requires forall p | p in todo :: p in t
    ensures Finish(w, RecoverMove(todo, t)) == RemoveState(RecoverPids(w, todo, t))
    decreases todo
  {
    if todo != [] {
      var (w', s') := Micro(w, RecoverMove(todo, t));
      assert Finish(w, RecoverMove(todo, t)) == Finish(w', s');
      RecoverDirect(RecoverPid(w, todo[0], t[todo[0]].0, t[todo[0]].1), todo[1..], t);
    }
  }

  // ----- the operations written out without intermediate steps -----

  /** The second half of an unenrol or a forget. */
  function Left(w: World, d: Dir): World { SaveState(Prune(w, d)) }

  function Joined(w: World, p: Pid, d: Dir, l: CgroupLimits): World {
    var o := OriginFor(w, p);
    var w1 := w.(k := MkdirAll(w.k, d));
    if !CanMkdir(w.k, d) then w1
    else
      var (k, ok) := Limits.Apply(w1.k, w1.base, d, l);
      var w2 := w1.(k := k);
      if !ok || !CanMove(w2.k, p, d) then w2
      else SaveState(w2.(k := Move(w2.k, p, d), enrolled := w2.enrolled[p := Enrolled(d, o, l)], created := w2.created + {d}))
  }

  lemma FinishPruning(w: World, p: Pid, en: Enrolled, after: After)
    ensures Finish(w, PruneOld(p, en, after)) == Finish(Left(w, en.dir), Then(after))
  {
    assert Finish(Prune(w, en.dir), PersistOld(p, en, after)) == Finish(Left(w, en.dir), Then(after));
  }

  lemma FinishLeaving(w: World, p: Pid, en: Enrolled, after: After)
    ensures Finish(w, PruneOld(p, en, after)) == Finish(Left(w, en.dir), Then(after))
    ensures Finish(w, MoveBack(p, en, after)) == Finish(Left(w.(k := Move(w.k, p, en.origin)), en.dir), Then(after))
  {
    var w1 := w.(k := Move(w.k, p, en.origin));
    assert Finish(w, MoveBack(p, en, after)) == Finish(w1, PruneOld(p, en, after));
    FinishPruning(w, p, en, after);
    FinishPruning(w1, p, en, after);
  }

  lemma FinishJoining(w: World, p: Pid, d: Dir, l: CgroupLimits)
    ensures Finish(w, ReadOrigin(p, d, l)) == Joined(w, p, d, l)
  {
    var o := OriginFor(w, p);
    var w1 := w.(k := MkdirAll(w.k, d));
    assert Finish(w, ReadOrigin(p, d, l)) == Finish(w, MakeDir(p, d, l, o));
    assert Finish(w, MakeDir(p, d, l, o)) == if CanMkdir(w.k, d) then Finish(w1, WriteLimits(p, d, l, o)) else w1;
    if CanMkdir(w.k, d) {
      var (k, ok) := Limits.Apply(w1.k, w1.base, d, l);
      var w2 := w1.(k := k);
      assert Finish(w1, WriteLimits(p, d, l, o)) == if ok then Finish(w2, MoveIn(p, d, l, o)) else w2;
      assert ok ==> (Finish(w2, MoveIn(p, d, l, o)) ==
        if CanMove(w2.k, p, d) then Finish(w2.(k := Move(w2.k, p, d)), Insert(p, d, l, o)) else w2);
      if ok && CanMove(w2.k, p, d) {
        FinishSaving(w2.(k := Move(w2.k, p, d)), p, d, l, o);
      }
    }
  }

  lemma FinishSaving(w: World, p: Pid, d: Dir, l: CgroupLimits, o: Dir)
    ensures Finish(w, Insert(p, d, l, o)) ==
            SaveState(w.(enrolled := w.enrolled[p := Enrolled(d, o, l)], created := w.created + {d}))
  {
    FinishPersist(w.(enrolled := w.enrolled[p := Enrolled(d, o, l)], created := w.created + {d}), p);
  }

  lemma FinishPersist(w: World, p: Pid)
    ensures Finish(w, Persist(p)) == SaveState(w)
  {
  }

  /** Take a pid out of the table and put the process back where it came from. */
  function Returned(w: World, p: Pid): World {
    if p in w.enrolled
    then Left(w.(enrolled := w.enrolled - {p}, k := Move(w.k, p, w.enrolled[p].origin)), w.enrolled[p].dir)
    else w
  }

  lemma UnenrollDirect(w: World, p: Pid)
    ensures Unenroll(w, p) == Returned(w, p)
  {
    if p in w.enrolled {
      FinishLeaving(w.(enrolled := w.enrolled - {p}), p, w.enrolled[p], Return);
    }
  }

  lemma ForgetDirect(w: World, p: Pid)
    ensures Forget(w, p) ==
            if p in w.enrolled then Left(w.(enrolled := w.enrolled - {p}), w.enrolled[p].dir) else w
  {
    if p in w.enrolled {
      FinishLeaving(w.(enrolled := w.enrolled - {p}), p, w.enrolled[p], Return);
    }
  }

  /** `sync_pid` in one piece: leave alone, rewrite, or return and join. */
  lemma SyncDirect(w: World, p: Pid, key: string, limits: Option<CgroupLimits>)
    ensures SyncPid(w, p, key, limits) ==
            if w.base.None? then w
            else if limits.None? then Returned(w, p)
            else
              var d := Target(w.base.value, key, limits.value);
              if p in w.enrolled && w.enrolled[p].dir == d then Rewrite(w, p, limits.value)
              else Joined(Returned(w, p), p, d, limits.value)
  {
    if w.base.Some? && limits.None? {
      UnenrollDirect(w, p);
    }
    if w.base.Some? && limits.Some? {
      var d := Target(w.base.value, key, limits.value);
      FinishJoining(Returned(w, p), p, d, limits.value);
      if p in w.enrolled {
        FinishLeaving(w.(enrolled := w.enrolled - {p}), p, w.enrolled[p], Reenrol(p, d, limits.value));
      }
    }
  }

  // ----- what a reconcile achieves -----

  /** An enrolment goes through as things stand. */
  ghost predicate CanJoin(w: World, p: Pid, d: Dir, l: CgroupLimits) {
    && CanMkdir(w.k, d) && Limits.Writable(MkdirAll(w.k, d), w.base, d, Limits.Requests(l))
    && p in w.k.at && (p, d) !in w.k.deny.moves
  }

  /** Dir and limits alone: they succeed or not, and move nobody. */
  lemma PreparedIff(w: World, d: Dir, l: CgroupLimits)
    requires CanMkdir(w.k, d)
    ensures var k1 := MkdirAll(w.k, d); var (k2, ok) := Limits.Apply(k1, w.base, d, l);
      && (ok <==> Limits.Writable(k1, w.base, d, Limits.Requests(l))) && (ok ==> Limits.Holds(k2, d, l))
      && k2.at == w.k.at && d in k2.dirs && k2.deny == w.k.deny
  {
    Limits.ApplyMeaning(MkdirAll(w.k, d), w.base, d, l);
    assert d == d[..|d|];
  }

  lemma JoinedIff(w: World, p: Pid, d: Dir, l: CgroupLimits)
    requires p !in w.enrolled
    ensures var w' := Joined(w, p, d, l);
      if CanJoin(w, p, d, l)
      then w'.enrolled == w.enrolled[p := Enrolled(d, OriginFor(w, p), l)] && w'.k.at == w.k.at[p := d] && Limits.Holds(w'.k, d, l)
      else w'.enrolled == w.enrolled && w'.k.at == w.k.at
  {
    if CanMkdir(w.k, d) {
      PreparedIff(w, d, l);
    }
  }

  /** Reconciling with limits for another dir: the process ends up enrolled there, moved in, with every value written
      and its limits and origin recorded, exactly if dir, limits and move are all taken once it is out of its old dir;
      otherwise it is enrolled nowhere and left where the unenrol put it. */
  lemma SyncEnrolsIff(w: World, p: Pid, key: string, l: CgroupLimits)
    requires w.base.Some? && !(p in w.enrolled && w.enrolled[p].dir == Target(w.base.value, key, l))
    ensures var d := Target(w.base.value, key, l); var v := Returned(w, p); var w' := SyncPid(w, p, key, Some(l));
      && (p in w'.enrolled <==> CanJoin(v, p, d, l))
      && (if p in w'.enrolled
          then w'.enrolled[p] == Enrolled(d, OriginFor(v, p), l) && w'.k.at == v.k.at[p := d] && Limits.Holds(w'.k, d, l)
          else w'.k.at == v.k.at)
      && w'.enrolled - {p} == w.enrolled - {p}
  {
    SyncDirect(w, p, key, Some(l));
    JoinedIff(Returned(w, p), p, Target(w.base.value, key, l), l);
  }

  /** Reconciling without limits: out of the table, and back at the recorded origin exactly if it is there already or
      the kernel takes the move. */
  lemma SyncReleasesIff(w: World, p: Pid, key: string)
    requires w.base.Some? && p in w.enrolled && p in w.k.at
    ensures var w' := SyncPid(w, p, key, None); var o := w.enrolled[p].origin;
      && w'.enrolled == w.enrolled - {p} && p in w'.k.at
      && (w'.k.at[p] == o <==> w.k.at[p] == o || CanMove(w.k, p, o))
  {
    SyncDirect(w, p, key, None);
  }
}
