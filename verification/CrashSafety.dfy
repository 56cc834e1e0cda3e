/** Every run of the cgroup manager: its operations cut into micro-steps, processes forking and exiting,
    the environment changing directories, files and permissions, and kills at any micro-step followed by
    a restart.  `home` is the ghost record of where each process was born, for processes born outside the
    daemon's directories. */
module CrashSafety {
  import opened Wrappers
  import opened Config
  import opened Cgroupfs
  import opened Enrolment
  import Limits
  import Ascend
  import Sweeping

  /** `zone` is the set of directories handed to the daemon: auto-named ones, the strays dir, explicit paths. */
  datatype Machine = Machine(
    w: World,
    step: Step,
    zone: set<Dir>,
    home: map<Pid, Dir>,
    lost: set<Pid>,
    crashes: nat)

  datatype Event =
    // the system
    | Fork(parent: Pid, child: Pid)
    | Exit(pid: Pid)
    | Environment(dirs: set<Dir>, files: map<(Dir, File), Value>, subtreeCpu: bool, deny: Denials)
    | Kill(restartBase: Option<Dir>)
    // the daemon
    | BeginSync(pid: Pid, key: string, limits: Option<CgroupLimits>)
    | BeginForget(pid: Pid)
    | MicroStep
    | Relocate(pid: Pid)
    | PruneDir(dir: Dir)
    | Adopt(dir: Dir)
    | AssertControllers
    | SetReasserted(on: bool)
    | DropStateFile

  /** The pid an unfinished operation is about. */
  function Subject(s: Step): Option<Pid> {
    match s
    case Idle | RecoverMove(_, _) | RecoverPrune(_, _) => None
    case MoveBack(p, _, _) => Some(p)
    case PruneOld(p, _, _) => Some(p)
    case PersistOld(p, _, _) => Some(p)
    case ReadOrigin(p, _, _) => Some(p)
    case MakeDir(p, _, _, _) => Some(p)
    case WriteLimits(p, _, _, _) => Some(p)
    case MoveIn(p, _, _, _) => Some(p)
    case Insert(p, _, _, _) => Some(p)
    case Persist(p) => Some(p)
  }

  /** The window in which a kill loses a pid: moved into its managed dir, not yet in the state file. */
  function Unsaved(s: Step): set<Pid> {
    match s
    case Insert(p, _, _, _) => {p}
    case Persist(p) => {p}
    case _ => {}
  }

  /** A pid never seen by the daemon: pids are not reused while it still remembers them. */
  predicate FreshPid(m: Machine, p: Pid) {
    && p !in m.w.k.at && p !in m.w.enrolled && p !in Decode(m.w.k.stateFile)
    && p !in m.lost && Subject(m.step) != Some(p)
  }

  /** Moves home are possible: the home exists and the kernel takes the move. */
  ghost predicate WayHome(dirs: set<Dir>, deny: Denials, home: map<Pid, Dir>) {
    forall p | p in home :: home[p] in dirs && (p, home[p]) !in deny.moves
  }

  predicate In(at: map<Pid, Dir>, p: Pid, d: Dir) {
    p in at && at[p] == d
  }

  ghost predicate Housed(at: map<Pid, Dir>, dirs: set<Dir>) {
    forall p | p in at :: at[p] in dirs
  }

  ghost predicate Enabled(m: Machine, e: Event) {
    match e
    case Fork(parent, child) =>
      parent in m.w.k.at && FreshPid(m, child) && (child, m.w.k.at[parent]) !in m.w.k.deny.moves
    case Exit(p) => true
    case Environment(dirs, files, cpu, deny) =>
      Housed(m.w.k.at, dirs) && WayHome(dirs, deny, m.home) && !deny.stateFile
    case Kill(_) => true
    case BeginSync(p, key, limits) =>
      m.step == Idle && (m.w.base.Some? && limits.Some? ==> Target(m.w.base.value, key, limits.value) in m.zone)
    case BeginForget(p) => m.step == Idle && p !in m.w.k.at
    case MicroStep => m.step != Idle
    case Relocate(p) =>
      && m.step == Idle && m.w.base.Some? && StrayDir(m.w.base.value) in m.zone
      && p in m.w.k.at && p !in m.w.enrolled && m.w.k.at[p] in m.zone
    case PruneDir(d) => m.step == Idle && d in m.zone
    case Adopt(d) => m.step == Idle && d in m.zone
    case AssertControllers => m.step == Idle
    case SetReasserted(_) => m.step == Idle
    case DropStateFile => m.step == Idle && m.w.enrolled == map[]
  }

  function Next(m: Machine, e: Event): Machine
    requires Enabled(m, e)
  {
    var w := m.w;
    match e
    case Fork(parent, child) =>
      var d := w.k.at[parent];
      m.(w := w.(k := w.k.(at := w.k.at[child := d])), home := if d in m.zone then m.home else m.home[child := d])
    case Exit(p) => m.(w := w.(k := w.k.(at := w.k.at - {p})), home := m.home - {p})
    case Environment(dirs, files, cpu, deny) =>
      m.(w := w.(k := w.k.(dirs := dirs, files := files, subtreeCpu := cpu, deny := deny)))
    case Kill(base) =>
      var (w', s) := StartRecover(base, w.k);
      var gone := Unsaved(m.step) * m.home.Keys;
      m.(w := w', step := s, home := m.home - gone, lost := m.lost + gone, crashes := m.crashes + 1)
    case BeginSync(p, key, limits) => var (w', s) := StartSync(w, p, key, limits); m.(w := w', step := s)
    case BeginForget(p) => var (w', s) := StartForget(w, p); m.(w := w', step := s)
    case MicroStep => var (w', s) := Micro(w, m.step); m.(w := w', step := s)
    case Relocate(p) => m.(w := Sweeping.StrayMove(w, p))
    case PruneDir(d) => m.(w := Prune(w, d))
    case Adopt(d) => m.(w := Prune(w.(created := w.created + {d}), d))
    case AssertControllers => m.(w := EnsureControllersOf(w))
    case SetReasserted(on) => m.(w := w.(reasserted := on))
    case DropStateFile => m.(w := RemoveState(w))
  }

  // ----- the invariant -----

  /** An enrolled pid lives in its recorded dir with its home as origin; any other pid with a home is there. */
  ghost predicate Placed(at: map<Pid, Dir>, enrolled: map<Pid, Enrolled>, home: map<Pid, Dir>, except: set<Pid>) {
    forall p | p in home && p !in except ::
      if p in enrolled
      then In(at, p, enrolled[p].dir) && enrolled[p].origin == home[p]
      else In(at, p, home[p])
  }

  /** Of the pids with a home, those still in their recorded dir are waiting to be moved, the others are home. */
  ghost predicate Recovering(at: map<Pid, Dir>, home: map<Pid, Dir>, waiting: seq<Pid>, t: map<Pid, (Dir, Dir)>) {
    && (forall p | p in waiting :: p in t)
    && forall p | p in home ::
         if p in t && In(at, p, t[p].0) then p in waiting && t[p].1 == home[p] else In(at, p, home[p])
  }

  ghost predicate AfterOk(p: Pid, after: After, zone: set<Dir>) {
    after.Reenrol? ==> after.pid == p && after.dir in zone
  }

  /** The origin read is the cgroup the pid is in, while the pid lives. */
  ghost predicate OriginOk(at: map<Pid, Dir>, p: Pid, origin: Dir) {
    p in at ==> at[p] == origin
  }

  ghost predicate LeaveOk(enrolled: map<Pid, Enrolled>, state: StateFile, zone: set<Dir>, p: Pid, en: Enrolled, after: After) {
    && p !in enrolled && en.dir in zone && AfterOk(p, after, zone)
    && Decode(state) == Mirror(enrolled)[p := (en.dir, en.origin)]
  }

  ghost predicate JoinOk(enrolled: map<Pid, Enrolled>, state: StateFile, zone: set<Dir>, p: Pid, d: Dir) {
    p !in enrolled && d in zone && Decode(state) == Mirror(enrolled)
  }

  ghost predicate StepOk(
    step: Step, at: map<Pid, Dir>, enrolled: map<Pid, Enrolled>, state: StateFile, zone: set<Dir>, home: map<Pid, Dir>)
  {
    match step
    case Idle => Placed(at, enrolled, home, {}) && Decode(state) == Mirror(enrolled)
    case MoveBack(p, en, after) =>
      && LeaveOk(enrolled, state, zone, p, en, after) && Placed(at, enrolled, home, {p})
      && (p in home ==> In(at, p, en.dir) && en.origin == home[p])
    case PruneOld(p, en, after) => LeaveOk(enrolled, state, zone, p, en, after) && Placed(at, enrolled, home, {})
    case PersistOld(p, en, after) => LeaveOk(enrolled, state, zone, p, en, after) && Placed(at, enrolled, home, {})
    case ReadOrigin(p, d, _) => JoinOk(enrolled, state, zone, p, d) && Placed(at, enrolled, home, {})
    case MakeDir(p, d, _, o) => JoinOk(enrolled, state, zone, p, d) && Placed(at, enrolled, home, {}) && OriginOk(at, p, o)
    case WriteLimits(p, d, _, o) => JoinOk(enrolled, state, zone, p, d) && Placed(at, enrolled, home, {}) && OriginOk(at, p, o)
    case MoveIn(p, d, _, o) => JoinOk(enrolled, state, zone, p, d) && Placed(at, enrolled, home, {}) && OriginOk(at, p, o)
    case Insert(p, d, _, o) =>
      && JoinOk(enrolled, state, zone, p, d) && Placed(at, enrolled, home, {p})
      && (p in home ==> In(at, p, d) && o == home[p])
    case Persist(p) =>
      p in enrolled && Placed(at, enrolled, home, {}) && Decode(state) == Mirror(enrolled - {p})
    case RecoverMove(todo, t) => enrolled == map[] && state == Entries(t) && Recovering(at, home, todo, t)
    case RecoverPrune(todo, t) =>
      todo != [] && todo[0] in t && enrolled == map[] && state == Entries(t) && Recovering(at, home, todo[1..], t)
  }

  ghost predicate StepInv(m: Machine) {
    StepOk(m.step, m.w.k.at, m.w.enrolled, m.w.k.stateFile, m.zone, m.home)
  }

  /** What holds whatever the step. */
  ghost predicate Always(m: Machine) {
    && Housed(m.w.k.at, m.w.k.dirs)
    && WayHome(m.w.k.dirs, m.w.k.deny, m.home)
    && !m.w.k.deny.stateFile
    && m.home.Keys <= m.w.k.at.Keys
    && (forall p | p in m.home :: m.home[p] !in m.zone)
    && DirsIn(m.w.enrolled, m.w.k.stateFile, m.zone)
    && m.w.created <= m.zone
    && m.lost !! m.home.Keys
    && |m.lost| <= m.crashes
  }

  ghost predicate DirsIn(enrolled: map<Pid, Enrolled>, state: StateFile, zone: set<Dir>) {
    && (forall p | p in enrolled :: enrolled[p].dir in zone)
    && (forall p | p in Decode(state) :: Decode(state)[p].0 in zone)
  }

  ghost predicate Inv(m: Machine) {
    Always(m) && StepInv(m)
  }

  /** A daemon about to begin, with no usable state file, and every process born where it is. */
  ghost predicate Initial(m: Machine) {
    && m.step == Idle && m.w.enrolled == map[] && m.w.created == {} && Decode(m.w.k.stateFile) == map[]
    && Housed(m.w.k.at, m.w.k.dirs) && WayHome(m.w.k.dirs, m.w.k.deny, m.home) && !m.w.k.deny.stateFile
    && m.home == (map p | p in m.w.k.at && m.w.k.at[p] !in m.zone :: m.w.k.at[p])
    && m.lost == {} && m.crashes == 0
  }

  lemma InitialInv(m: Machine)
    requires Initial(m)
    ensures Inv(m)
  {
  }

  // ----- each kind of step keeps it -----

  lemma PruneKeeps(w: World, d: Dir, home: map<Pid, Dir>)
    requires Housed(w.k.at, w.k.dirs) && WayHome(w.k.dirs, w.k.deny, home) && forall p | p in home :: home[p] != d
    ensures Housed(w.k.at, Prune(w, d).k.dirs) && WayHome(Prune(w, d).k.dirs, w.k.deny, home)
    ensures Prune(w, d) == w.(k := Prune(w, d).k, created := Prune(w, d).created)
    ensures Prune(w, d).k == w.k.(dirs := Prune(w, d).k.dirs, files := Prune(w, d).k.files)
    ensures Prune(w, d).created <= w.created
  {
    if Removable(w.k, d) {
      forall p | p in w.k.at
        ensures w.k.at[p] in Rmdir(w.k, d).dirs
      {
        assert p !in Procs(w.k, d);
      }
    }
  }

  lemma LeavingStep(m: Machine)
    requires Inv(m) && (m.step.MoveBack? || m.step.PruneOld? || m.step.PersistOld?)
    ensures Inv(Next(m, MicroStep))
  {
    if m.step.PruneOld? {
      PruneKeeps(m.w, m.step.entry.dir, m.home);
    }
  }

  lemma JoiningStep(m: Machine)
    requires Inv(m) && (m.step.ReadOrigin? || m.step.MakeDir? || m.step.WriteLimits? || m.step.MoveIn?)
    ensures Inv(Next(m, MicroStep))
  {
    if m.step.WriteLimits? {
      Limits.ApplyMeaning(m.w.k, m.w.base, m.step.dir, m.step.limits);
    }
    if m.step.ReadOrigin? {
      assert m.step.pid !in Mirror(m.w.enrolled);
    }
  }

  lemma SavingStep(m: Machine)
    requires Inv(m) && (m.step.Insert? || m.step.Persist?)
    ensures Inv(Next(m, MicroStep))
  {
    if m.step.Insert? {
      assert Next(m, MicroStep).w.enrolled - {m.step.pid} == m.w.enrolled;
    }
  }

  lemma RecoverOne(at: map<Pid, Dir>, home: map<Pid, Dir>, todo: seq<Pid>, t: map<Pid, (Dir, Dir)>)
    requires todo != [] && Recovering(at, home, todo, t) && (todo[0] in home ==> t[todo[0]].0 != home[todo[0]])
    ensures Recovering(if In(at, todo[0], t[todo[0]].0) then at[todo[0] := t[todo[0]].1] else at, home, todo[1..], t)
  {
    assert forall q | q in todo :: q == todo[0] || q in todo[1..];
  }

  lemma RecoverMoveStep(m: Machine)
    requires Inv(m) && m.step.RecoverMove?
    ensures Inv(Next(m, MicroStep))
  {
    var todo, t := m.step.todo, m.step.table;
    assert t == Decode(m.w.k.stateFile);
    if todo == [] {
      assert Mirror(m.w.enrolled) == map[];
    } else {
      RecoverOne(m.w.k.at, m.home, todo, t);
    }
  }

  lemma RecoverPruneStep(m: Machine)
    requires Inv(m) && m.step.RecoverPrune?
    ensures Inv(Next(m, MicroStep))
  {
    assert m.step.table == Decode(m.w.k.stateFile);
    PruneKeeps(m.w, m.step.table[m.step.todo[0]].0, m.home);
  }

  /** Whatever the step, kernel and state file alone say how to bring everyone home, except an unsaved pid. */
  ghost predicate Recoverable(m: Machine) {
    var t := Decode(m.w.k.stateFile);
    forall p | p in m.home && p !in Unsaved(m.step) ::
      if p in t && In(m.w.k.at, p, t[p].0) then t[p].1 == m.home[p] else In(m.w.k.at, p, m.home[p])
  }

  lemma AlwaysRecoverable(m: Machine)
    requires Inv(m)
    ensures Recoverable(m)
  {
    match m.step
    case RecoverMove(_, _) =>
    case RecoverPrune(_, _) =>
    case MoveBack(p, _, _) =>
    case _ =>
  }

  lemma AtMostOneMore(lost: set<Pid>, s: Step, home: map<Pid, Dir>)
    ensures |lost + Unsaved(s) * home.Keys| <= |lost| + 1
  {
    var gone := Unsaved(s) * home.Keys;
    assert gone <= Unsaved(s) && |Unsaved(s)| <= 1;
    if gone != {} {
      assert gone == Unsaved(s);
    }
    assert |lost + gone| <= |lost| + |gone|;
  }

  /** A restarted daemon, from kernel and state file alone. */
  lemma RestartStepInv(m: Machine)
    requires Recoverable(m) && Unsaved(m.step) == {} && !m.w.k.deny.stateFile
    requires m.w.enrolled == map[]
    ensures var (w, s) := StartRecover(m.w.base, m.w.k); StepInv(m.(w := w, step := s))
  {
    var t := Decode(m.w.k.stateFile);
    if m.w.k.stateFile.Entries? && |t| != 0 {
      var todo := Ascend.Ascending(t.Keys);
      assert Recovering(m.w.k.at, m.home, todo, t);
    } else {
      assert t == map[];
    }
  }

  /** The machine a kill leaves behind, before the next daemon looks at anything. */
  function Killed(m: Machine, base: Option<Dir>): Machine {
    var gone := Unsaved(m.step) * m.home.Keys;
    Machine(World(base, map[], {}, false, m.w.k), Idle, m.zone, m.home - gone, m.lost + gone, m.crashes + 1)
  }

  lemma KilledRecoverable(m: Machine, base: Option<Dir>)
    requires Inv(m)
    ensures Recoverable(Killed(m, base))
  {
    AlwaysRecoverable(m);
  }

  lemma KilledAlways(m: Machine, base: Option<Dir>)
    requires Always(m)
    ensures Always(Killed(m, base))
  {
    AtMostOneMore(m.lost, m.step, m.home);
  }

  lemma RestartAlways(m: Machine)
    requires Always(m)
    ensures var (w, s) := StartRecover(m.w.base, m.w.k); Always(m.(w := w, step := s))
  {
    var w := StartRecover(m.w.base, m.w.k).0;
    assert w.enrolled == map[] && w.created == {};
    assert w.k == m.w.k || w.k == m.w.k.(stateFile := Absent);
  }

  lemma KillKeepsInv(m: Machine, base: Option<Dir>)
    requires Inv(m)
    ensures Inv(Next(m, Kill(base)))
  {
    var b := Killed(m, base);
    KilledRecoverable(m, base);
    KilledAlways(m, base);
    RestartStepInv(b);
    var (w, s) := StartRecover(base, m.w.k);
    var m' := b.(w := w, step := s);
    RestartAlways(b);
    assert Next(m, Kill(base)) == m';
  }

  lemma ForkKeepsInv(m: Machine, parent: Pid, child: Pid)
    requires Inv(m) && Enabled(m, Fork(parent, child))
    ensures Inv(Next(m, Fork(parent, child)))
  {
    ForkAlways(m, parent, child);
    ForkStep(m, parent, child);
  }

  lemma ForkAlways(m: Machine, parent: Pid, child: Pid)
    requires Inv(m) && Enabled(m, Fork(parent, child))
    ensures Always(Next(m, Fork(parent, child)))
  {
  }

  lemma ForkStep(m: Machine, parent: Pid, child: Pid)
    requires Inv(m) && Enabled(m, Fork(parent, child))
    ensures StepInv(Next(m, Fork(parent, child)))
  {
    var m' := Next(m, Fork(parent, child));
    ForkStepOk(m.step, m.w.k.at, m'.w.k.at, m.w.enrolled, m.w.k.stateFile, m.zone, m.home, m'.home, child);
  }

  lemma ForkStepOk(
    step: Step, at: map<Pid, Dir>, at': map<Pid, Dir>, enrolled: map<Pid, Enrolled>, state: StateFile, zone: set<Dir>,
    home: map<Pid, Dir>, home': map<Pid, Dir>, child: Pid)
    requires StepOk(step, at, enrolled, state, zone, home)
    requires child !in at && child !in home && child !in enrolled && child !in Decode(state) && Subject(step) != Some(child)
    requires child in at' && at' == at[child := at'[child]] && (home' == home || home' == home[child := at'[child]])
    ensures StepOk(step, at', enrolled, state, zone, home')
  {
  }

  lemma ExitKeepsInv(m: Machine, p: Pid)
    requires Inv(m)
    ensures Inv(Next(m, Exit(p)))
  {
  }

  lemma EnvironmentKeepsInv(m: Machine, e: Event)
    requires Inv(m) && Enabled(m, e) && e.Environment?
    ensures Inv(Next(m, e))
  {
  }

  lemma RewriteKeepsInv(m: Machine, p: Pid, l: CgroupLimits)
    requires Inv(m) && m.step == Idle && p in m.w.enrolled
    ensures Inv(m.(w := Rewrite(m.w, p, l)))
  {
    var en := m.w.enrolled[p];
    Limits.ApplyMeaning(m.w.k, m.w.base, en.dir, l);
    assert Mirror(m.w.enrolled[p := en.(limits := l)]) == Mirror(m.w.enrolled);
  }

  lemma UnenrollKeepsInv(m: Machine, p: Pid, after: After)
    requires Inv(m) && m.step == Idle && AfterOk(p, after, m.zone)
    ensures var (w, s) := StartUnenroll(m.w, p, after); Inv(m.(w := w, step := s))
  {
    if p in m.w.enrolled {
      assert Mirror(m.w.enrolled - {p})[p := (m.w.enrolled[p].dir, m.w.enrolled[p].origin)] == Mirror(m.w.enrolled);
    }
  }

  lemma ForgetKeepsInv(m: Machine, p: Pid)
    requires Inv(m) && m.step == Idle && p !in m.w.k.at
    ensures var (w, s) := StartForget(m.w, p); Inv(m.(w := w, step := s))
  {
    if p in m.w.enrolled {
      assert Mirror(m.w.enrolled - {p})[p := (m.w.enrolled[p].dir, m.w.enrolled[p].origin)] == Mirror(m.w.enrolled);
    }
  }

  lemma BeginKeepsInv(m: Machine, p: Pid, key: string, limits: Option<CgroupLimits>)
    requires Inv(m) && Enabled(m, BeginSync(p, key, limits))
    ensures Inv(Next(m, BeginSync(p, key, limits)))
  {
    if m.w.base.Some? {
      match limits
      case None => UnenrollKeepsInv(m, p, Return);
      case Some(l) =>
        var d := Target(m.w.base.value, key, l);
        if p in m.w.enrolled && m.w.enrolled[p].dir == d {
          RewriteKeepsInv(m, p, l);
        } else {
          UnenrollKeepsInv(m, p, Reenrol(p, d, l));
        }
    }
  }

  lemma RelocateKeepsInv(m: Machine, p: Pid)
    requires Inv(m) && Enabled(m, Relocate(p))
    ensures Inv(Next(m, Relocate(p)))
  {
    assert p !in m.home;
  }

  lemma PruneKeepsInv(m: Machine, d: Dir)
    requires Inv(m) && m.step == Idle && d in m.zone
    ensures Inv(m.(w := Prune(m.w, d)))
  {
    PruneKeeps(m.w, d, m.home);
  }

  lemma AdoptKeepsInv(m: Machine, d: Dir)
    requires Inv(m) && m.step == Idle && d in m.zone
    ensures Inv(Next(m, Adopt(d)))
  {
    PruneKeepsInv(m.(w := m.w.(created := m.w.created + {d})), d);
  }

  lemma ControllersKeepInv(m: Machine)
    requires Inv(m) && m.step == Idle
    ensures Inv(Next(m, AssertControllers))
  {
    var w' := EnsureControllersOf(m.w);
    assert w' == m.w.(k := m.w.k.(files := w'.k.files, subtreeCpu := w'.k.subtreeCpu), reasserted := w'.reasserted);
  }

  lemma DropStateKeepsInv(m: Machine)
    requires Inv(m) && m.step == Idle && m.w.enrolled == map[]
    ensures Inv(Next(m, DropStateFile))
  {
  }

  lemma EventKeepsInv(m: Machine, e: Event)
    requires Inv(m) && Enabled(m, e)
    ensures Inv(Next(m, e))
  {
    match e
    case Fork(parent, child) => ForkKeepsInv(m, parent, child);
    case Exit(p) => ExitKeepsInv(m, p);
    case Environment(_, _, _, _) => EnvironmentKeepsInv(m, e);
    case Kill(base) => KillKeepsInv(m, base);
    case BeginSync(p, key, limits) => BeginKeepsInv(m, p, key, limits);
    case BeginForget(p) => ForgetKeepsInv(m, p);
    case MicroStep => MicroKeepsInv(m);
    case Relocate(p) => RelocateKeepsInv(m, p);
    case PruneDir(d) => PruneKeepsInv(m, d);
    case Adopt(d) => AdoptKeepsInv(m, d);
    case AssertControllers => ControllersKeepInv(m);
    case SetReasserted(_) =>
    case DropStateFile => DropStateKeepsInv(m);
  }

  lemma MicroKeepsInv(m: Machine)
    requires Inv(m) && m.step != Idle
    ensures Inv(Next(m, MicroStep))
  {
    if m.step.MoveBack? || m.step.PruneOld? || m.step.PersistOld? {
      LeavingStep(m);
    } else if m.step.Insert? || m.step.Persist? {
      SavingStep(m);
    } else if m.step.RecoverMove? || m.step.RecoverPrune? {
      if m.step.RecoverMove? { RecoverMoveStep(m); } else { RecoverPruneStep(m); }
    } else {
      JoiningStep(m);
    }
  }

  // ----- runs -----

  ghost predicate CanRun(m: Machine, es: seq<Event>)
    decreases es
  {
    es != [] ==> Enabled(m, es[0]) && CanRun(Next(m, es[0]), es[1..])
  }

  ghost function Run(m: Machine, es: seq<Event>): Machine
    requires CanRun(m, es)
    decreases es
  {
    if es == [] then m else Run(Next(m, es[0]), es[1..])
  }

  lemma {:induction false} RunKeepsInv(m: Machine, es: seq<Event>)
    requires Inv(m) && CanRun(m, es)
    ensures Inv(Run(m, es))
    decreases es
  {
    if es != [] {
      EventKeepsInv(m, es[0]);
      RunKeepsInv(Next(m, es[0]), es[1..]);
    }
  }

  /** Home restoration: between two operations of any run, with any number of kills, restarts, failed enrols
      and switches behind it, an enrolled process is in its recorded dir with its home as recorded origin, any
      other process with a home is there, the state file mirrors the table, and no more homes have been lost
      than there were kills. */
  lemma HomeRestoration(m: Machine, es: seq<Event>)
    requires Initial(m) && CanRun(m, es) && Run(m, es).step == Idle
    ensures var r := Run(m, es);
      && (forall p | p in r.home && p in r.w.enrolled ::
            In(r.w.k.at, p, r.w.enrolled[p].dir) && r.w.enrolled[p].origin == r.home[p])
      && (forall p | p in r.home && p !in r.w.enrolled :: In(r.w.k.at, p, r.home[p]))
      && Decode(r.w.k.stateFile) == Mirror(r.w.enrolled)
      && |r.lost| <= r.crashes
  {
    InitialInv(m);
    RunKeepsInv(m, es);
  }

  /** The origin written down at enrolment is the cgroup the process is in at that moment: with state writes
      succeeding, the fallback to the state file is never taken. */
  lemma OriginIsWhereItLives(m: Machine, es: seq<Event>)
    requires Initial(m) && CanRun(m, es) && Run(m, es).step.ReadOrigin?
    ensures var r := Run(m, es); OriginFor(r.w, r.step.pid) == CgroupOf(r.w.k, r.step.pid)
  {
    InitialInv(m);
    RunKeepsInv(m, es);
    var r := Run(m, es);
    assert r.step.pid !in Mirror(r.w.enrolled);
  }

  /** Running an operation to its end is a run of micro-steps. */
  lemma {:induction false} FinishKeepsInv(m: Machine)
    requires Inv(m)
    ensures Inv(m.(w := Finish(m.w, m.step), step := Idle))
    decreases Remaining(m.step)
  {
    if m.step != Idle {
      MicroKeepsInv(m);
      FinishKeepsInv(Next(m, MicroStep));
    }
  }

  function RecoveryTable(s: Step): map<Pid, (Dir, Dir)> {
    match s
    case RecoverMove(_, t) => t
    case RecoverPrune(_, t) => t
    case _ => map[]
  }

  /** Recovery moves a process only out of the dir recorded for it, and enrols nobody. */
  lemma {:induction false} RecoveryTouches(w: World, s: Step)
    requires s.Idle? || s.RecoverMove? || s.RecoverPrune?
    ensures Finish(w, s).enrolled == w.enrolled
    ensures Finish(w, s).k.at.Keys == w.k.at.Keys
    ensures forall p | p in w.k.at :: var t := RecoveryTable(s);
              In(Finish(w, s).k.at, p, w.k.at[p]) || (p in t && In(w.k.at, p, t[p].0))
    decreases Remaining(s)
  {
    if s != Idle {
      var (w', s') := Micro(w, s);
      RecoveryTouches(w', s');
    }
  }

  lemma RecoverMovesRecorded(base: Option<Dir>, k: Kernel)
    ensures var w := Recover(base, k); w.enrolled == map[] && w.k.at.Keys == k.at.Keys
    ensures forall p | p in k.at :: var t := Decode(k.stateFile);
              In(Recover(base, k).k.at, p, k.at[p]) || (p in t && In(k.at, p, t[p].0))
  {
    var (w, s) := StartRecover(base, k);
    RecoveryTouches(w, s);
  }

  lemma SavedComeHome(r: Machine, base: Option<Dir>)
    requires Inv(r)
    ensures var w := Recover(base, r.w.k);
      && w.enrolled == map[] && Decode(w.k.stateFile) == map[]
      && forall p | p in r.home && p !in Unsaved(r.step) :: In(w.k.at, p, r.home[p])
  {
    var r' := Next(r, Kill(base));
    KillKeepsInv(r, base);
    FinishKeepsInv(r');
    RecoverMovesRecorded(base, r.w.k);
    var w := Finish(r'.w, r'.step);
    assert w == Recover(base, r.w.k);
    assert Mirror(w.enrolled) == map[];
    assert forall p | p in r.home && p !in Unsaved(r.step) :: p in r'.home && r'.home[p] == r.home[p];
  }

  lemma UnsavedStaysAway(r: Machine, base: Option<Dir>, p: Pid)
    requires Inv(r) && p in r.home && p in Unsaved(r.step)
    ensures !In(Recover(base, r.w.k).k.at, p, r.home[p])
  {
    assert p !in Decode(r.w.k.stateFile);
    assert r.w.k.at[p] in r.zone;
    RecoverMovesRecorded(base, r.w.k);
  }

  /** Crash recovery: kill the daemon at any micro-step of any run; the recovery of the next daemon brings every
      live process with a home back there, except exactly the one whose enrolment had moved it but not saved it. */
  lemma {:induction false} CrashRecovery(m: Machine, es: seq<Event>, base: Option<Dir>)
    requires Initial(m) && CanRun(m, es)
    ensures var r := Run(m, es); var w := Recover(base, r.w.k);
      && w.enrolled == map[] && Decode(w.k.stateFile) == map[] && |Unsaved(r.step)| <= 1
      && forall p | p in r.home :: In(w.k.at, p, r.home[p]) <==> p !in Unsaved(r.step)
  {
    InitialInv(m);
    RunKeepsInv(m, es);
    var r := Run(m, es);
    SavedComeHome(r, base);
    forall p | p in r.home && p in Unsaved(r.step)
      ensures !In(Recover(base, r.w.k).k.at, p, r.home[p])
    {
      UnsavedStaysAway(r, base, p);
    }
  }

  // ----- shutdown -----

  lemma {:induction false} UnenrollAllKeepsInv(m: Machine, order: seq<Pid>)
    requires Inv(m) && m.step == Idle
    ensures Inv(m.(w := UnenrollAll(m.w, order)))
    ensures forall p :: p in UnenrollAll(m.w, order).enrolled <==> p in m.w.enrolled && p !in order
    decreases order
  {
    if order != [] {
      var p := order[0];
      var (w, s) := StartUnenroll(m.w, p, Return);
      UnenrollKeepsInv(m, p, Return);
      FinishKeepsInv(m.(w := w, step := s));
      UnenrollDirect(m.w, p);
      UnenrollAllKeepsInv(m.(w := Unenroll(m.w, p)), order[1..]);
      assert forall q :: q in order <==> q == p || q in order[1..];
    }
  }

  /** After any run, a shutdown, whatever the order in which it visits the table, leaves every process with a
      home at that home, nobody enrolled, and nothing to recover. */
  lemma ShutdownReturnsEveryone(m: Machine, es: seq<Event>, order: seq<Pid>)
    requires Initial(m) && CanRun(m, es) && Run(m, es).step == Idle
    requires forall p :: p in order <==> p in Run(m, es).w.enrolled
    ensures var r := Run(m, es); var w := Shutdown(r.w, order);
      && w.enrolled == map[] && Decode(w.k.stateFile) == map[]
      && forall p | p in r.home :: In(w.k.at, p, r.home[p])
  {
    InitialInv(m);
    RunKeepsInv(m, es);
    UnenrollAllKeepsInv(Run(m, es), order);
  }
}
