/** The two config files and the daemon's handling of them: which one wins at boot, reloading on changes,
    debounced writes of GUI edits to the local file, and promotion of a settled local file over the root file. */
module SyncSteps {
  import opened Wrappers
  import opened Config
  import opened Edits

  /** File content: what the daemon renders from a config, or what somebody typed, with what it parses to. */
  datatype Text = Rendered(config: AppConfig) | Typed(chars: string, meaning: Option<AppConfig>)

  function Parse(t: Text): Option<AppConfig> {
    match t
    case Rendered(c) => Some(c)
    case Typed(_, m) => m
  }

  datatype Which = LocalFile | RootFile

  datatype File = File(text: Text, mtime: nat)

  /** Both files, the clock in milliseconds, the mtime the next write will get, and the denied writes. */
  datatype Disk = Disk(
    local: Option<File>, root: Option<File>, clock: nat, nextMtime: nat, denyLocal: bool, denyRoot: bool)

  datatype Source = Root | Local | Missing

  const MIN_PROMOTE_DEBOUNCE := 50
  const SELF_WRITE_TOLERANCE := 1000

  /** The fields of `Sync` and the disk it works on. */
  datatype State = State(
    active: AppConfig,
    source: Source,
    promoteDebounce: nat,
    writeDebounce: nat,
    pendingPromote: bool,
    changedAt: Option<nat>,
    mtimeAtChange: Option<nat>,
    pendingWrite: bool,
    writeAt: Option<nat>,
    selfWrites: map<Which, nat>,
    known: map<Which, Option<nat>>,
    disk: Disk)

  function Fresh(promoteDebounce: nat, writeDebounce: nat, disk: Disk): State {
    State(DefaultConfig, Missing, Max(promoteDebounce, MIN_PROMOTE_DEBOUNCE), writeDebounce,
          false, None, None, false, None, map[], map[], disk)
  }

  function FileOf(d: Disk, f: Which): Option<File> {
    match f
    case LocalFile => d.local
    case RootFile => d.root
  }

  function Mtime(d: Disk, f: Which): Option<nat> {
    match FileOf(d, f)
    case Some(file) => Some(file.mtime)
    case None => None
  }

  function Load(d: Disk, f: Which): Option<AppConfig> {
    match FileOf(d, f)
    case Some(file) => Parse(file.text)
    case None => None
  }

  function LoadRoot(x: State): State {
    match Load(x.disk, RootFile)
    case Some(c) => x.(active := c, source := Root)
    case None => x
  }

  function LoadLocal(x: State, now: nat): State {
    match Load(x.disk, LocalFile)
    case Some(c) =>
      x.(active := c, source := Local, changedAt := Some(now), mtimeAtChange := Mtime(x.disk, LocalFile))
    case None => x
  }

  /** Is the file's current mtime one we gave it, up to the tolerance for coarse filesystems? */
  predicate IsSelfWrite(x: State, f: Which) {
    f in x.selfWrites && match Mtime(x.disk, f)
      case Some(cur) => x.selfWrites[f] <= cur < x.selfWrites[f] + SELF_WRITE_TOLERANCE
      case None => false
  }

  function SnapshotMtimes(x: State): State {
    x.(known := x.known[LocalFile := Mtime(x.disk, LocalFile)][RootFile := Mtime(x.disk, RootFile)])
  }

  function InitialLoad(x: State, now: nat): State {
    var loaded :=
      match (Mtime(x.disk, RootFile), Mtime(x.disk, LocalFile))
      case (None, None) => x.(active := DefaultConfig, source := Missing)
      case (Some(_), None) => LoadRoot(x)
      case (None, Some(_)) => LoadLocal(x, now).(pendingPromote := true)
      case (Some(r), Some(l)) => if l > r then LoadLocal(x, now).(pendingPromote := true) else LoadRoot(x);
    SnapshotMtimes(loaded)
  }

  function OnPathChanged(x: State, f: Which, now: nat): (State, bool) {
    if IsSelfWrite(x, f) then (x, false)
    else match f
      case LocalFile => (LoadLocal(x, now).(pendingPromote := true), true)
      case RootFile => (LoadRoot(x).(pendingPromote := false), true)
  }

  function PollOne(x: State, f: Which, now: nat): (State, bool) {
    var cur := Mtime(x.disk, f);
    if f in x.known && x.known[f] == cur then (x, false)
    else OnPathChanged(x.(known := x.known[f := cur]), f, now)
  }

  function PollMtimes(x: State, now: nat): (State, bool) {
    var (x1, a) := PollOne(x, LocalFile, now);
    var (x2, b) := PollOne(x1, RootFile, now);
    (x2, a || b)
  }

  function WriteLocal(x: State): State {
    if x.disk.denyLocal then x
    else
      var m := x.disk.nextMtime;
      var d := x.disk.(local := Some(File(Rendered(x.active), m)), nextMtime := m + 1);
      x.(disk := d, selfWrites := x.selfWrites[LocalFile := m], changedAt := Some(d.clock),
         mtimeAtChange := Some(m), pendingPromote := true)
  }

  predicate LocalStillUnchanged(x: State) {
    x.disk.local.Some? && x.mtimeAtChange == Some(x.disk.local.value.mtime)
  }

  function Promote(x: State): (State, bool) {
    if x.disk.local.None? then (x, false)
    else if x.disk.denyRoot then (x.(pendingPromote := false), false)
    else
      var m := x.disk.nextMtime;
      var d := x.disk.(root := Some(File(x.disk.local.value.text, m)), nextMtime := m + 1);
      (x.(disk := d, selfWrites := x.selfWrites[RootFile := m], pendingPromote := false, source := Root), true)
  }

  predicate WriteDue(x: State, now: nat) {
    x.pendingWrite && x.writeAt.Some? && now >= x.writeAt.value
  }

  function FlushWrite(x: State, now: nat): State {
    if WriteDue(x, now) then WriteLocal(x).(pendingWrite := false) else x
  }

  predicate PromoteDue(x: State, now: nat) {
    && x.pendingPromote && x.changedAt.Some? && Since(now, x.changedAt.value) >= x.promoteDebounce
    && LocalStillUnchanged(x)
  }

  function Tick(x: State, now: nat): (State, bool) {
    var x1 := FlushWrite(x, now);
    if PromoteDue(x1, now) then Promote(x1) else (x1, false)
  }

  datatype GuiEdit = EditRule(name: string, edit: Edit) | SetPollInterval(ms: nat)

  function Edited(cfg: AppConfig, e: GuiEdit): AppConfig {
    match e
    case EditRule(name, edit) => Do(cfg, name, edit)
    case SetPollInterval(ms) => cfg.(pollIntervalMs := Some(ms))
  }

  function Upsert(x: State, e: GuiEdit): State {
    x.(active := Edited(x.active, e), source := Local, pendingWrite := true,
       writeAt := Some(x.disk.clock + x.writeDebounce))
  }
}
