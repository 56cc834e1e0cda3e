/** The part of the operating system the cgroup manager acts on: which cgroup each process is in, which
    cgroup directories exist, what their control files hold, and the manager's state file.

    The rules are those of the Linux kernel's "Control Group v2" document: writing a pid to `cgroup.procs`
    is a move, a directory can be removed only without processes and child directories, and the `cpu.*`
    files of a child exist only while the parent's subtree_control lists `cpu`.  `deny` says which
    operations the kernel currently refuses (permissions, busy cgroups); nothing is assumed about it. */
module Cgroupfs {
  import opened Wrappers

  type Pid = nat
  /** A directory by its path components below the cgroup mount point; `[]` is the mount point. */
  type Dir = seq<string>

  datatype File = CpuMax | CpuIdle | CpuWeight | MemoryHigh | MemoryMax

  datatype Value =
    | Quota(quota: nat, period: nat)
    | NoQuota
    | Flag(on: bool)
    | Weight(weight: nat)
    | Size(text: string)

  /** The state file: no file, a file that does not decode, or the table pid -> (managed dir, origin). */
  datatype StateFile = Absent | Garbage | Entries(table: map<Pid, (Dir, Dir)>)

  datatype Denials = Denials(
    moves: set<(Pid, Dir)>,
    mkdirs: set<Dir>,
    writes: set<(Dir, File)>,
    controllers: bool,
    stateFile: bool)

  datatype Kernel = Kernel(
    at: map<Pid, Dir>,
    dirs: set<Dir>,
    files: map<(Dir, File), Value>,
    subtreeCpu: bool,
    stateFile: StateFile,
    deny: Denials)

  function Decode(s: StateFile): map<Pid, (Dir, Dir)> {
    if s.Entries? then s.table else map[]
  }

  function Procs(k: Kernel, d: Dir): set<Pid> {
    set p | p in k.at && k.at[p] == d
  }

  predicate CanMove(k: Kernel, p: Pid, d: Dir) {
    p in k.at && d in k.dirs && (p, d) !in k.deny.moves
  }

  function Move(k: Kernel, p: Pid, d: Dir): Kernel {
    if CanMove(k, p, d) then k.(at := k.at[p := d]) else k
  }

  predicate CanMkdir(k: Kernel, d: Dir) {
    d in k.dirs || d !in k.deny.mkdirs
  }

  /** `create_dir_all`: the directory and every missing ancestor.  Their control files start at the defaults, none of which
      makes a dir idle; `files` lists a file once it has been written or brought back. */
  function MkdirAll(k: Kernel, d: Dir): Kernel {
    if d !in k.dirs && d !in k.deny.mkdirs
    then k.(dirs := k.dirs + set i | 0 <= i <= |d| :: d[..i])
    else k
  }

  predicate Removable(k: Kernel, d: Dir) {
    d in k.dirs && Procs(k, d) == {} && forall c | c in k.dirs :: !(d < c)
  }

  function Rmdir(k: Kernel, d: Dir): Kernel {
    k.(dirs := k.dirs - {d}, files := map e | e in k.files && e.0 != d :: k.files[e])
  }

  predicate IsCpuFile(f: File) {
    f.CpuMax? || f.CpuIdle? || f.CpuWeight?
  }

  predicate IsIdle(k: Kernel, d: Dir) {
    (d, CpuIdle) in k.files && k.files[(d, CpuIdle)] == Flag(true)
  }

  /** Is `d` strictly below the base whose subtree_control the daemon writes? */
  predicate Below(base: Option<Dir>, d: Dir) {
    base.Some? && base.value < d
  }

  /** The kernel takes a value if the file exists and is writable; `cpu.weight` is rejected while the group is idle. */
  predicate CanWrite(k: Kernel, base: Option<Dir>, d: Dir, f: File) {
    && d in k.dirs
    && (d, f) !in k.deny.writes
    && (IsCpuFile(f) && Below(base, d) ==> k.subtreeCpu)
    && (f.CpuWeight? ==> !IsIdle(k, d))
  }

  function Write(k: Kernel, d: Dir, f: File, v: Value): Kernel {
    k.(files := k.files[(d, f) := v])
  }

  /** systemd drops `cpu` from the base's subtree_control: the cpu files below the base go, with their values. */
  function DropCpu(k: Kernel, base: Option<Dir>): Kernel {
    k.(subtreeCpu := false,
       files := map e | e in k.files && !(IsCpuFile(e.1) && Below(base, e.0)) :: k.files[e])
  }

  /** The value of a control file that nobody has set. */
  function DefaultOf(f: File): Value {
    match f
    case CpuMax => NoQuota
    case CpuIdle => Flag(false)
    case CpuWeight => Weight(100)
    case MemoryHigh | MemoryMax => Size("max")
  }

  /** An allowed `+cpu +memory +pids` write brings missing cpu files back, at their default values; if `cpu` is listed
      already it changes nothing. */
  function EnableCpu(k: Kernel, base: Option<Dir>): Kernel {
    if k.subtreeCpu then k
    else k.(subtreeCpu := true,
            files := (map d, f | d in k.dirs && f in {CpuMax, CpuIdle, CpuWeight} && Below(base, d) :: (d, f) := DefaultOf(f)) + k.files)
  }
}
