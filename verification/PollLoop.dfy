/** The daemon's main loop: client messages, config reloads and the poll cycle that looks at every process, decides
    what applies to it, and asks about new game-looking names. */
module PollLoop {
  import opened Wrappers
  import opened Config
  import opened Rules
  import Edits
  import SyncSteps

  type Pid = nat

  // ----- what the scan sees -----

  /** One scanned process, with the outcomes of the checks that read its environment, fds and command line. */
  datatype Entry = Entry(
    pid: Pid, name: string, uid: nat, age: nat, nice: int,
    steamEnv: bool, driFd: bool, fullscreen: bool, wineInternal: bool, inCatalog: bool, shown: Shown)

  /** What is read of a process only to be shown; its CPU% among it. */
  datatype Shown = Shown(ppid: Pid, user: string, cpu: real, memKb: nat, status: string, exe: Option<string>, startSecs: nat)

  /** The daemon's identity, and the names in the known-games catalog. */
  datatype Env = Env(ourPid: Pid, ourUid: nat, root: bool, knownNames: set<string>)

  /** What is remembered of a process between polls, as far as decisions depend on it.  The nice value is the one scanned,
      before the poll applied anything. */
  datatype Row = Row(pid: Pid, name: string, gameDetected: bool, tier: Option<Tier>, nice: int)

  datatype Prompt = Prompt(name: string, pid: Pid)

  const DE_CRITICAL := [
    "kwin_wayland", "kwin_x11", "kwin_wayland_wrapper", "plasmashell", "kded6", "kded5", "kglobalaccel", "ksmserver",
    "kscreenlocker", "krunner", "Xwayland", "xdg-desktop-portal", "xdg-desktop-portal-kde", "org_kde_*"]

  predicate Matches(pattern: string, name: string) {
    if pattern != [] && pattern[|pattern| - 1] == '*' then pattern[..|pattern| - 1] <= name else name == pattern
  }

  predicate IsDeCritical(name: string) {
    exists i | 0 <= i < |DE_CRITICAL| :: Matches(DE_CRITICAL[i], name)
  }

  predicate IsSelfBinary(name: string) { name == "nicewatch" || name == "nicewatch-gui" }

  function DetectGame(e: Entry): GameFlags {
    if IsDeCritical(e.name) || e.wineInternal then NoFlags else GameFlags(e.steamEnv, e.driFd, e.fullscreen, false)
  }

  predicate Ours(env: Env, e: Entry) { e.pid == env.ourPid || IsSelfBinary(e.name) }

  predicate Untouchable(env: Env, e: Entry) { e.uid != env.ourUid && !env.root }

  // ----- the loop's state -----

  /** The variables of `run`.  `asked` is a ghost: every name a client was ever asked about. */
  datatype Daemon = Daemon(
    sync: SyncSteps.State,
    rules: RuleSet,
    prompted: set<string>,
    suppressed: set<string>,
    instance: set<string>,
    pending: seq<Prompt>,
    flags: map<Pid, GameFlags>,
    table: map<Pid, Row>,
    asked: set<string>)

  predicate Undecided(d: Daemon, name: string) {
    !HasRule(d.rules, name) && name !in d.prompted && name !in d.suppressed
  }

  predicate UsesCache(d: Daemon, e: Entry) { e.pid in d.flags && !Undecided(d, e.name) }

  /** The flags of a process; the catalog is asked every time, except about critical names. */
  function FlagsOf(env: Env, d: Daemon, e: Entry): GameFlags {
    if Ours(env, e) || Untouchable(env, e) then NoFlags
    else
      var f := if UsesCache(d, e) then d.flags[e.pid] else DetectGame(e);
      if IsDeCritical(e.name) then f else f.(known := e.inCatalog)
  }

  /** What is applied to a process: the rules, then the exclusion, then the instance-only games, then ownership. */
  function Decide(env: Env, d: Daemon, e: Entry): Resolved {
    var byRule := Resolve(d.rules, e.name, FlagsOf(env, d, e), e.age);
    var allowed := if IsDeCritical(e.name) then Nothing else byRule;
    var resolved := if allowed.Nothing? && e.name in d.instance then Apply(AutoTarget(d.rules.autoGame)) else allowed;
    if Untouchable(env, e) then Nothing else resolved
  }

  function RowOf(env: Env, d: Daemon, e: Entry): Row {
    var r := Decide(env, d, e);
    Row(e.pid, e.name, FlagsOf(env, d, e).IsGame(), if r.Apply? then r.target.tier else None, e.nice)
  }

  /** A listing of /proc names every pid once. */
  ghost predicate DistinctPids(entries: seq<Entry>) {
    forall i, j | 0 <= i < j < |entries| :: entries[i].pid != entries[j].pid
  }

  function NamesSeen(entries: seq<Entry>): set<string> { set e | e in entries :: e.name }

  function PidsSeen(entries: seq<Entry>): set<Pid> { set e | e in entries :: e.pid }

  // ----- one poll -----

  function ScanTable(env: Env, d: Daemon, entries: seq<Entry>): map<Pid, Row>
    decreases entries
  {
    if entries == [] then map[]
    else
      var e := entries[|entries| - 1];
      ScanTable(env, d, entries[..|entries| - 1])[e.pid := RowOf(env, d, e)]
  }

  function ScanFlags(env: Env, d: Daemon, entries: seq<Entry>): map<Pid, GameFlags>
    decreases entries
  {
    if entries == [] then d.flags
    else
      var e := entries[|entries| - 1];
      var flags := ScanFlags(env, d, entries[..|entries| - 1]);
      if Ours(env, e) || Untouchable(env, e) || UsesCache(d, e) then flags else flags[e.pid := DetectGame(e)]
  }

  /** Bookkeeping about names that nobody carries any more is dropped, and so are the flags of exited pids. */
  function Pruned(d: Daemon, seen: set<string>, table: map<Pid, Row>, flags: map<Pid, GameFlags>): Daemon {
    d.(prompted := d.prompted * seen, suppressed := d.suppressed * seen, instance := d.instance * seen,
       table := table, flags := flags - (d.table.Keys - table.Keys))
  }

  predicate IsFresh(env: Env, d: Daemon, row: Row) {
    row.gameDetected && row.name !in env.knownNames && Undecided(d, row.name)
  }

  predicate PromptBefore(a: Prompt, b: Prompt) {
    Before(a.name, b.name) || (a.name == b.name && a.pid < b.pid)
  }

  /** The names to ask about, once per process, in order. */
  ghost predicate IsFreshList(env: Env, d: Daemon, asks: seq<Prompt>) {
    && (forall i, j | 0 <= i < j < |asks| :: PromptBefore(asks[i], asks[j]))
    && (forall a :: a in asks <==> exists p :: p in d.table && IsFresh(env, d, d.table[p]) && a == Prompt(d.table[p].name, d.table[p].pid))
  }

  function AskedNames(asks: seq<Prompt>): set<string> { set a | a in asks :: a.name }

  function Heard(asks: seq<Prompt>, heard: set<Prompt>): seq<Prompt>
    decreases asks
  {
    if asks == [] then []
    else
      var rest := Heard(asks[..|asks| - 1], heard);
      var a := asks[|asks| - 1];
      if a in heard then rest + [a] else rest
  }

  function Unheard(asks: seq<Prompt>, heard: set<Prompt>): set<string> {
    set a | a in asks && a !in heard :: a.name
  }

  /** Each name is marked as asked; with a client connected (`heard`) the prompt is queued and sent, without one the
      answer is "not now". */
  function AskAll(d: Daemon, asks: seq<Prompt>, heard: set<Prompt>): Daemon {
    d.(prompted := d.prompted + AskedNames(asks),
       pending := d.pending + Heard(asks, heard),
       instance := d.instance + Unheard(asks, heard),
       suppressed := d.suppressed + Unheard(asks, heard),
       asked := d.asked + AskedNames(Heard(asks, heard)))
  }

  function Scanned(env: Env, d: Daemon, entries: seq<Entry>): Daemon {
    Pruned(d, NamesSeen(entries), ScanTable(env, d, entries), ScanFlags(env, d, entries))
  }

  function PollCycle(env: Env, d: Daemon, entries: seq<Entry>, asks: seq<Prompt>, heard: set<Prompt>): Daemon {
    AskAll(Scanned(env, d, entries), asks, heard)
  }

  // ----- config reloads and client messages -----

  function OnPaths(x: SyncSteps.State, paths: seq<SyncSteps.Which>, now: nat): (SyncSteps.State, bool)
    decreases paths
  {
    if paths == [] then (x, false)
    else
      var (x1, a) := OnPaths(x, paths[..|paths| - 1], now);
      var (x2, b) := SyncSteps.OnPathChanged(x1, paths[|paths| - 1], now);
      (x2, a || b)
  }

  /** Watcher events, the mtime poll, one rebuild of the index if anything was reloaded, and the tick. */
  function Reload(d: Daemon, paths: seq<SyncSteps.Which>, now: nat): Daemon {
    var (x1, a) := OnPaths(d.sync, paths, now);
    var (x2, b) := SyncSteps.PollMtimes(x1, now);
    var rules := if a || b then Build(x2.active) else d.rules;
    d.(sync := SyncSteps.Tick(x2, now).0, rules := rules)
  }

  datatype Answer = Yes | No | NotNow

  /** A client's hello asks for a snapshot like `RequestSnapshot`. */
  datatype ClientMsg =
    | RequestSnapshot
    | SetPollInterval(ms: nat)
    | SetTier(pid: Pid, tier: Tier)
    | SetCap(name: string, pct: Option<nat>)
    | ConfirmGame(name: string, answer: Answer)

  const MIN_POLL_INTERVAL_MS := 250
  const MAX_POLL_INTERVAL_MS := 60000

  function EditConfig(d: Daemon, name: string, edit: Edits.Edit): Daemon {
    var sync := SyncSteps.Upsert(d.sync, SyncSteps.EditRule(name, edit));
    d.(sync := sync, rules := Build(sync.active))
  }

  function WithoutName(pending: seq<Prompt>, name: string): seq<Prompt>
    decreases pending
  {
    if pending == [] then []
    else
      var rest := WithoutName(pending[..|pending| - 1], name);
      var p := pending[|pending| - 1];
      if p.name != name then rest + [p] else rest
  }

  function Handle(d: Daemon, msg: ClientMsg): Daemon {
    match msg
    case RequestSnapshot => d
    case SetPollInterval(ms) =>
      d.(sync := SyncSteps.Upsert(d.sync, SyncSteps.SetPollInterval(Max(MIN_POLL_INTERVAL_MS, Min(ms, MAX_POLL_INTERVAL_MS)))))
    case SetTier(pid, tier) =>
      if pid !in d.table then d else EditConfig(d, d.table[pid].name, Edits.SetTier(tier))
    case SetCap(name, pct) => EditConfig(d, name, Edits.SetCap(pct))
    case ConfirmGame(name, answer) =>
      var d1 := d.(pending := WithoutName(d.pending, name));
      match answer
      case Yes => EditConfig(d1, name, Edits.SetTier(Game))
      case No => EditConfig(d1, name, Edits.SetTier(Software))
      case NotNow =>
        d1.(instance := d.instance + {name}, suppressed := d.suppressed + {name}, rules := Build(d.sync.active))
  }

  /** The pids a tier edit renices at once, without waiting for the next poll. */
  function TouchedAtOnce(d: Daemon, msg: ClientMsg): set<Pid> {
    if msg.SetTier? && msg.pid in d.table then set p | p in d.table && d.table[p].name == d.table[msg.pid].name
    else {}
  }

  /** At start-up, after the first load of the config files. */
  function Booted(x: SyncSteps.State, now: nat): Daemon {
    var sync := SyncSteps.InitialLoad(x, now);
    Daemon(sync, Build(sync.active), {}, {}, {}, [], map[], map[], {})
  }
}
