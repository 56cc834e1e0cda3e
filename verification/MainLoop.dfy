/** The main loop's variables as an object updated in place, over the config machinery's own object. */
module MainLoop {
  import opened Wrappers
  import opened Config
  import opened Rules
  import opened PollLoop
  import opened ConfigSync
  import Cgroupfs
  import Enrolment
  import Manager
  import Reconcile
  import Replica
  import SelfHealing
  import Sweeping
  import SyncSteps
  import Tables

  // ----- sorting the prompts -----

  lemma PromptOrder(a: Prompt, b: Prompt, c: Prompt)
    ensures PromptBefore(a, b) || PromptBefore(b, a) || a == b
    ensures PromptBefore(a, b) && PromptBefore(b, c) ==> PromptBefore(a, c)
  {
    BeforeTotal(a.name, b.name);
    if Before(a.name, b.name) && Before(b.name, c.name) {
      BeforeTransitive(a.name, b.name, c.name);
    }
  }

  ghost predicate InPromptOrder(s: seq<Prompt>) {
    forall i, j | 0 <= i < j < |s| :: PromptBefore(s[i], s[j])
  }

  /** Put a prompt in its place, unless it is there already. */
  function Insert(a: Prompt, s: seq<Prompt>): (r: seq<Prompt>)
    ensures forall x :: x in r <==> x == a || x in s
    decreases s
  {
    if s == [] then [a]
    else
      assert s == [s[0]] + s[1..];
      if a == s[0] then s
      else if PromptBefore(a, s[0]) then [a] + s
      else [s[0]] + Insert(a, s[1..])
  }

  lemma {:induction false} InsertKeepsOrder(a: Prompt, s: seq<Prompt>)
    requires InPromptOrder(s)
    ensures InPromptOrder(Insert(a, s))
    decreases s
  {
    if s != [] && a != s[0] {
      if PromptBefore(a, s[0]) {
        forall j | 0 <= j < |s|
          ensures PromptBefore(a, s[j])
        {
          PromptOrder(a, s[0], s[j]);
        }
      } else {
        PromptOrder(a, s[0], a);
        InsertKeepsOrder(a, s[1..]);
        var rest := Insert(a, s[1..]);
        forall j | 0 <= j < |rest|
          ensures PromptBefore(s[0], rest[j])
        {
          assert rest[j] in rest;
          if rest[j] != a {
            var k :| 0 <= k < |s[1..]| && s[1..][k] == rest[j];
            assert s[k + 1] == rest[j];
          }
        }
      }
    }
  }

  /** Sort and drop duplicates. */
  function SortDedup(s: seq<Prompt>): (r: seq<Prompt>)
    ensures forall x :: x in r <==> x in s
    decreases s
  {
    if s == [] then []
    else
      assert s == s[..|s| - 1] + [s[|s| - 1]];
      Insert(s[|s| - 1], SortDedup(s[..|s| - 1]))
  }

  lemma {:induction false} SortDedupSorts(s: seq<Prompt>)
    ensures InPromptOrder(SortDedup(s))
    decreases s
  {
    if s != [] {
      SortDedupSorts(s[..|s| - 1]);
      InsertKeepsOrder(s[|s| - 1], SortDedup(s[..|s| - 1]));
    }
  }

  // ----- the scan reads its own writes -----

  lemma {:induction false} ScanLeavesOthers(env: Env, d: Daemon, entries: seq<Entry>, p: Pid)
    requires p !in PidsSeen(entries)
    ensures p in ScanFlags(env, d, entries) <==> p in d.flags
    ensures p in d.flags ==> ScanFlags(env, d, entries)[p] == d.flags[p]
    decreases entries
  {
    if entries != [] {
      assert entries == entries[..|entries| - 1] + [entries[|entries| - 1]];
      ScanLeavesOthers(env, d, entries[..|entries| - 1], p);
    }
  }

  lemma NextPidIsNew(entries: seq<Entry>, i: nat)
    requires DistinctPids(entries) && i < |entries|
    ensures entries[i].pid !in PidsSeen(entries[..i])
  {
  }

  /** The daemon as it stands in the middle of a scan. */
  function MidScan(env: Env, d: Daemon, entries: seq<Entry>): Daemon {
    d.(flags := ScanFlags(env, d, entries))
  }

  /** The flag cache once one process has been scanned. */
  function ScannedFlags(env: Env, d: Daemon, e: Entry): map<Pid, GameFlags> {
    if Ours(env, e) || Untouchable(env, e) || UsesCache(d, e) then d.flags else d.flags[e.pid := DetectGame(e)]
  }

  lemma ScanStep(env: Env, d: Daemon, entries: seq<Entry>, i: nat)
    requires DistinctPids(entries) && i < |entries|
    ensures var e, mid := entries[i], MidScan(env, d, entries[..i]);
      && mid.(flags := ScannedFlags(env, mid, e)) == MidScan(env, d, entries[..i + 1])
      && ScanTable(env, d, entries[..i + 1]) == ScanTable(env, d, entries[..i])[e.pid := RowOf(env, mid, e)]
      && NamesSeen(entries[..i + 1]) == NamesSeen(entries[..i]) + {e.name}
      && WantsOf(env, d, entries[..i + 1]) == WantsOf(env, d, entries[..i]) + [WantOf(e, Decide(env, mid, e))]
      && TargetsOf(env, d, entries[..i + 1]) == TargetsOf(env, d, entries[..i])
           + (if Decide(env, mid, e).Apply? then [(e.pid, Decide(env, mid, e).target)] else [])
  {
    assert entries[..i + 1][..i] == entries[..i] && entries[..i + 1] == entries[..i] + [entries[i]];
    JudgedAsAtStart(env, d, entries, i);
  }

  /** In the middle of a scan the next process is judged as it would have been at its start. */
  lemma JudgedAsAtStart(env: Env, d: Daemon, entries: seq<Entry>, i: nat)
    requires DistinctPids(entries) && i < |entries|
    ensures var e, mid := entries[i], MidScan(env, d, entries[..i]);
      && UsesCache(mid, e) == UsesCache(d, e)
      && FlagsOf(env, mid, e) == FlagsOf(env, d, e)
      && Decide(env, mid, e) == Decide(env, d, e)
  {
    NextPidIsNew(entries, i);
    ScanLeavesOthers(env, d, entries[..i], entries[i].pid);
  }

  // ----- what a scan hands on -----

  /** The cgroup half of a decision: rule name (or `game`) and limits. */
  function WantOf(e: Entry, r: Resolved): SelfHealing.Want {
    match r
    case Apply(t) => SelfHealing.Want(e.pid, t.rule.GetOr("game"), t.cgroup)
    case Nothing => SelfHealing.Want(e.pid, "", None)
  }

  function WantsOf(env: Env, d: Daemon, entries: seq<Entry>): seq<SelfHealing.Want>
    decreases entries
  {
    if entries == [] then []
    else
      var e := entries[|entries| - 1];
      WantsOf(env, d, entries[..|entries| - 1]) + [WantOf(e, Decide(env, d, e))]
  }

  /** The processes to reconcile with a target, in the order of the scan. */
  function TargetsOf(env: Env, d: Daemon, entries: seq<Entry>): seq<(Pid, ApplyTarget)>
    decreases entries
  {
    if entries == [] then []
    else
      var e := entries[|entries| - 1];
      var front := TargetsOf(env, d, entries[..|entries| - 1]);
      match Decide(env, d, e)
      case Apply(t) => front + [(e.pid, t)]
      case Nothing => front
  }

  lemma {:induction false} SyncAllAppend(w: Enrolment.World, wants: seq<SelfHealing.Want>, x: SelfHealing.Want)
    ensures SelfHealing.SyncAll(w, wants + [x]) == Enrolment.SyncPid(SelfHealing.SyncAll(w, wants), x.pid, x.key, x.limits)
    decreases wants
  {
    if wants == [] {
      assert wants + [x] == [x] && [x][1..] == [];
    } else {
      var y := wants[0];
      assert (wants + [x])[0] == y && (wants + [x])[1..] == wants[1..] + [x];
      SyncAllAppend(Enrolment.SyncPid(w, y.pid, y.key, y.limits), wants[1..], x);
    }
  }

  lemma {:induction false} ForgetAllAppend(w: Enrolment.World, exited: seq<Pid>, p: Pid)
    ensures SelfHealing.ForgetAll(w, exited + [p]) == Enrolment.Forget(SelfHealing.ForgetAll(w, exited), p)
    decreases exited
  {
    if exited == [] {
      assert exited + [p] == [p] && [p][1..] == [];
    } else {
      assert (exited + [p])[0] == exited[0] && (exited + [p])[1..] == exited[1..] + [p];
      ForgetAllAppend(Enrolment.Forget(w, exited[0]), exited[1..], p);
    }
  }

  /** The scan has just read these nice values. */
  ghost predicate IsFreshScan(entries: seq<Entry>, procs: Reconcile.Procs) {
    forall e | e in entries && e.pid in procs :: procs[e.pid].nice == e.nice
  }

  lemma PidsOneMore(entries: seq<Entry>)
    requires entries != []
    ensures PidsSeen(entries) == PidsSeen(entries[..|entries| - 1]) + {entries[|entries| - 1].pid}
  {
    assert entries == entries[..|entries| - 1] + [entries[|entries| - 1]];
  }

  lemma {:induction false} TargetsSeen(env: Env, d: Daemon, entries: seq<Entry>)
    ensures forall i | 0 <= i < |TargetsOf(env, d, entries)| :: TargetsOf(env, d, entries)[i].0 in PidsSeen(entries)
    decreases entries
  {
    if entries != [] {
      var rest, last := entries[..|entries| - 1], entries[|entries| - 1];
      TargetsSeen(env, d, rest);
      PidsOneMore(entries);
    }
  }

  lemma {:induction false} UntouchedStays(root: bool, procs: Reconcile.Procs, targets: seq<(Pid, ApplyTarget)>, p: Pid)
    requires forall i | 0 <= i < |targets| :: targets[i].0 != p
    ensures Reconcile.AppliedAll(root, procs, targets).Keys == procs.Keys
    ensures p in procs ==> Reconcile.AppliedAll(root, procs, targets)[p] == procs[p]
    decreases targets
  {
    if targets != [] {
      UntouchedStays(root, procs, targets[..|targets| - 1], p);
    }
  }

  /** In the middle of a scan the next process still has the nice value that was scanned. */
  lemma StillFresh(env: Env, d: Daemon, entries: seq<Entry>, procs: Reconcile.Procs, i: nat)
    requires DistinctPids(entries) && IsFreshScan(entries, procs) && i < |entries|
    ensures var now, e := Reconcile.AppliedAll(env.root, procs, TargetsOf(env, d, entries[..i])), entries[i];
      e.pid in now ==> now[e.pid].nice == e.nice
  {
    TargetsSeen(env, d, entries[..i]);
    NextPidIsNew(entries, i);
    UntouchedStays(env.root, procs, TargetsOf(env, d, entries[..i]), entries[i].pid);
  }

  lemma AppliedOneMore(root: bool, procs: Reconcile.Procs, targets: seq<(Pid, ApplyTarget)>, p: Pid, t: ApplyTarget)
    ensures var front := Reconcile.AppliedAll(root, procs, targets);
      Reconcile.AppliedAll(root, procs, targets + [(p, t)]) ==
        if p in front then front[p := Reconcile.Applied(root, front[p], t)] else front
  {
    assert (targets + [(p, t)])[..|targets|] == targets;
  }

  lemma TargetStep(env: Env, d: Daemon, entries: seq<Entry>, procs: Reconcile.Procs, i: nat)
    requires DistinctPids(entries) && i < |entries|
    ensures var e, r := entries[i], Decide(env, MidScan(env, d, entries[..i]), entries[i]);
      var before, after := TargetsOf(env, d, entries[..i]), TargetsOf(env, d, entries[..i + 1]);
      var now := Reconcile.AppliedAll(env.root, procs, before);
      Reconcile.AppliedAll(env.root, procs, after) ==
        if r.Apply? && e.pid in now then now[e.pid := Reconcile.Applied(env.root, now[e.pid], r.target)] else now
  {
    ScanStep(env, d, entries, i);
    var e, r := entries[i], Decide(env, MidScan(env, d, entries[..i]), entries[i]);
    if r.Apply? {
      AppliedOneMore(env.root, procs, TargetsOf(env, d, entries[..i]), e.pid, r.target);
    } else {
      assert TargetsOf(env, d, entries[..i + 1]) == TargetsOf(env, d, entries[..i]);
    }
  }

  // ----- the table -----

  type Info = Tables.Info

  /** The entry of a process: what was read of it, what was decided, its I/O priority afterwards, and whether the cgroup
      manager has it. */
  function InfoOf(e: Entry, row: Row, procs: Reconcile.Procs, w: Enrolment.World): Info {
    var io := if e.pid in procs && procs[e.pid].ioprio.Some? then Reconcile.Decode(procs[e.pid].ioprio.value)
              else Reconcile.Ioprio(NoClass, 0);
    Tables.Info(
      e.pid, e.shown.ppid, e.name, e.shown.user, e.shown.cpu, e.shown.memKb, e.shown.status, e.nice, io.ioClass, io.priority,
      row.tier, e.pid in w.enrolled, row.gameDetected, e.shown.exe, e.shown.startSecs)
  }

  /** What decisions depend on. */
  function RowsOf(t: map<Pid, Info>): map<Pid, Row> {
    map p | p in t :: Row(t[p].pid, t[p].name, t[p].gameDetected, t[p].tier, t[p].nice)
  }

  /** The table of a scan: each entry as things stand when its process has been dealt with. */
  function InfoTable(env: Env, d: Daemon, procs: Reconcile.Procs, w: Enrolment.World, entries: seq<Entry>): map<Pid, Info>
    decreases entries
  {
    if entries == [] then map[]
    else
      var e := entries[|entries| - 1];
      var procs' := Reconcile.AppliedAll(env.root, procs, TargetsOf(env, d, entries));
      var w' := SelfHealing.SyncAll(w, WantsOf(env, d, entries));
      InfoTable(env, d, procs, w, entries[..|entries| - 1])[e.pid := InfoOf(e, RowOf(env, d, e), procs', w')]
  }

  lemma {:induction false} InfoTableMeaning(
    env: Env, d: Daemon, procs: Reconcile.Procs, w: Enrolment.World, entries: seq<Entry>)
    ensures var t := InfoTable(env, d, procs, w, entries);
      RowsOf(t) == ScanTable(env, d, entries) && Tables.Keyed(t)
    decreases entries
  {
    if entries != [] {
      var rest, last := entries[..|entries| - 1], entries[|entries| - 1];
      InfoTableMeaning(env, d, procs, w, rest);
      var procs' := Reconcile.AppliedAll(env.root, procs, TargetsOf(env, d, entries));
      var w' := SelfHealing.SyncAll(w, WantsOf(env, d, entries));
      EnterRow(InfoTable(env, d, procs, w, rest), last, RowOf(env, d, last), procs', w');
    }
  }

  lemma EnterRow(t: map<Pid, Info>, e: Entry, row: Row, procs: Reconcile.Procs, w: Enrolment.World)
    requires Tables.Keyed(t) && row.pid == e.pid && row.name == e.name && row.nice == e.nice
    ensures var t' := t[e.pid := InfoOf(e, row, procs, w)];
      RowsOf(t') == RowsOf(t)[e.pid := row] && Tables.Keyed(t')
  {
  }

  lemma TableStep(env: Env, d: Daemon, procs: Reconcile.Procs, w: Enrolment.World, entries: seq<Entry>, i: nat)
    requires DistinctPids(entries) && i < |entries|
    ensures var e, seen := entries[i], entries[..i + 1];
      InfoTable(env, d, procs, w, seen) ==
        InfoTable(env, d, procs, w, entries[..i])[e.pid := InfoOf(e, RowOf(env, MidScan(env, d, entries[..i]), e),
          Reconcile.AppliedAll(env.root, procs, TargetsOf(env, d, seen)), SelfHealing.SyncAll(w, WantsOf(env, d, seen)))]
  {
    assert entries[..i + 1][..i] == entries[..i];
    JudgedAsAtStart(env, d, entries, i);
  }

  // ----- what the clients are told -----

  type ClientId = Replica.ClientId

  function Broadcast(s: Replica.Server, msg: Replica.Msg, dead: set<ClientId>): Replica.Server {
    Replica.Handled(s, Replica.Op.Broadcast(msg, dead))
  }

  function Snapshot(t: map<Pid, Info>): Replica.Msg { Replica.Msg.Snapshot(Tables.Sorted(t)) }

  /** The server once these prompts have been sent; `dead(i)` are the clients found gone by the i-th broadcast. */
  function PromptsTold(s: Replica.Server, asks: seq<Prompt>, dead: nat -> set<ClientId>): Replica.Server
    decreases asks
  {
    if asks == [] then s else Broadcast(PromptsTold(s, asks[..|asks| - 1], dead), Replica.Other, dead(|asks| - 1))
  }

  /** The prompts that some client is there to hear. */
  function HeardBy(s: Replica.Server, asks: seq<Prompt>, dead: nat -> set<ClientId>): set<Prompt> {
    set i | 0 <= i < |asks| && PromptsTold(s, asks[..i], dead).clients != map[] :: asks[i]
  }

  /** The server after a look at the config files: a snapshot for a reload, and one for a promotion. */
  function FilesTold(
    s: Replica.Server, t: map<Pid, Info>, reloaded: bool, promoted: bool, dead: nat -> set<ClientId>): Replica.Server
  {
    var s1 := if reloaded then Broadcast(s, Snapshot(t), dead(0)) else s;
    if promoted then Broadcast(s1, Snapshot(t), dead(1)) else s1
  }

  /** Whether anything is reloaded, and whether the local file is promoted. */
  function FileNews(x: SyncSteps.State, paths: seq<SyncSteps.Which>, now: nat): (bool, bool) {
    var (x1, a) := OnPaths(x, paths, now);
    var (x2, b) := SyncSteps.PollMtimes(x1, now);
    (a || b, SyncSteps.Tick(x2, now).1)
  }

  /** The server after a poll: the prompts, then snapshot or difference. */
  function PollTold(
    s: Replica.Server, asks: seq<Prompt>, sentInitial: bool, cur: map<Pid, Info>, diff: Tables.Diff,
    dead: nat -> set<ClientId>): Replica.Server
  {
    var s1 := PromptsTold(s, asks, dead);
    match Replica.PollMsg(sentInitial, cur, diff)
    case Some(msg) => Broadcast(s1, msg, dead(|asks|))
    case None => s1
  }

  /** What a message does to the processes at once: a tier edit hands its preset to every process of the name, against
      the nice values of the table. */
  function ProcsAtOnce(env: Env, d: Daemon, msg: ClientMsg, procs: Reconcile.Procs): Reconcile.Procs {
    map p | p in procs ::
      if msg.SetTier? && p in TouchedAtOnce(d, msg)
      then Reconcile.AppliedNow(env.root, procs[p], d.table[p].nice, TierPreset(msg.tier))
      else procs[p]
  }

  lemma NothingAtOnce(env: Env, d: Daemon, msg: ClientMsg, procs: Reconcile.Procs)
    requires !msg.SetTier? || msg.pid !in d.table
    ensures ProcsAtOnce(env, d, msg, procs) == procs
  {
  }

  /** Every message is answered with a snapshot to all clients, except a tier for a pid that is not in the table. */
  predicate SendsSnapshot(d: Daemon, msg: ClientMsg) { !(msg.SetTier? && msg.pid !in d.table) }

  class Loop {
    const env: Env
    const sync: Sync
    const cgroups: Manager.CgroupManager
    const scheduler: Reconcile.Scheduler
    const ipc: Replica.IpcHandle
    var ruleset: RuleSet
    var promptedNames: set<string>
    var suppressedUntilExit: set<string>
    var instanceGames: set<string>
    var pendingPrompts: seq<Prompt>
    var flagCache: map<Pid, GameFlags>
    var fullInfo: map<Pid, Info>
    var sentInitialSnapshot: bool
    ghost var asked: set<string>

    ghost function View(): Daemon
      reads this, sync, sync.storage
    {
      Daemon(
        sync.View(), ruleset, promptedNames, suppressedUntilExit, instanceGames, pendingPrompts, flagCache, RowsOf(fullInfo), asked)
    }

    constructor (
      env: Env, sync: Sync, cgroups: Manager.CgroupManager, scheduler: Reconcile.Scheduler, ipc: Replica.IpcHandle, now: nat)
      modifies sync
      ensures this.env == env && this.sync == sync && this.cgroups == cgroups && this.scheduler == scheduler && this.ipc == ipc
      ensures View() == Booted(old(sync.View()), now) && fullInfo == map[] && !sentInitialSnapshot
    {
      this.ipc := ipc;
      sentInitialSnapshot := false;
      this.env := env;
      this.sync := sync;
      this.cgroups := cgroups;
      this.scheduler := scheduler;
      promptedNames, suppressedUntilExit, instanceGames := {}, {}, {};
      pendingPrompts, flagCache, fullInfo := [], map[], map[];
      asked := {};
      new;
      sync.InitialLoad(now);
      ruleset := FromConfig(sync.active);
    }

    /** A snapshot to all clients. */
    method BroadcastSnapshot(dead: set<ClientId>)
      modifies ipc
      ensures ipc.View() == Broadcast(old(ipc.View()), Snapshot(fullInfo), dead)
    {
      ipc.Broadcast(Snapshot(fullInfo), dead);
    }

    /** Watcher events, mtime poll, rebuild, tick; a snapshot if anything was reloaded, and another if the local file
        was promoted. */
    method ReloadConfig(paths: seq<SyncSteps.Which>, now: nat, dead: nat -> set<ClientId>)
      returns (reloaded: bool, promoted: bool)
      modifies this`ruleset, sync, sync.storage, ipc
      ensures View() == Reload(old(View()), paths, now)
      ensures (reloaded, promoted) == FileNews(old(sync.View()), paths, now)
      ensures ipc.View() == FilesTold(old(ipc.View()), fullInfo, reloaded, promoted, dead)
    {
      reloaded := LookAtFiles(paths, now);
      if reloaded {
        BroadcastSnapshot(dead(0));
      }
      promoted := sync.Tick(now);
      if promoted {
        BroadcastSnapshot(dead(1));
      }
    }

    /** Watcher events, then the mtime poll; the index is rebuilt once if anything was reloaded. */
    method LookAtFiles(paths: seq<SyncSteps.Which>, now: nat) returns (reloaded: bool)
      modifies this`ruleset, sync, sync.storage
      ensures var (x1, a) := OnPaths(old(sync.View()), paths, now); var (x2, b) := SyncSteps.PollMtimes(x1, now);
        sync.View() == x2 && reloaded == (a || b) && ruleset == if reloaded then Build(x2.active) else old(ruleset)
    {
      ghost var x := sync.View();
      reloaded := false;
      for i := 0 to |paths|
        invariant (sync.View(), reloaded) == OnPaths(x, paths[..i], now) && ruleset == old(ruleset)
      {
        var c := sync.OnPathChanged(paths[i], now);
        reloaded := reloaded || c;
        assert paths[..i + 1][..i] == paths[..i];
      }
      assert paths[..|paths|] == paths;
      var c := sync.PollMtimes(now);
      reloaded := reloaded || c;
      if reloaded {
        ruleset := FromConfig(sync.active);
      }
    }

    /** Drop the prompts for a name. */
    method Retain(name: string)
      modifies this`pendingPrompts
      ensures pendingPrompts == WithoutName(old(pendingPrompts), name)
    {
      var kept: seq<Prompt> := [];
      for i := 0 to |pendingPrompts|
        invariant pendingPrompts == old(pendingPrompts)
        invariant kept == WithoutName(pendingPrompts[..i], name)
      {
        assert pendingPrompts[..i + 1][..i] == pendingPrompts[..i];
        if pendingPrompts[i].name != name {
          kept := kept + [pendingPrompts[i]];
        }
      }
      assert pendingPrompts[..|pendingPrompts|] == pendingPrompts;
      pendingPrompts := kept;
    }

    /** Hand a preset at once to every process of the table that carries the name. */
    method ApplyPresetNow(name: string, preset: Preset)
      modifies scheduler
      ensures scheduler.procs.Keys == old(scheduler.procs).Keys
      ensures forall p | p in scheduler.procs :: scheduler.procs[p] ==
                if p in fullInfo && fullInfo[p].name == name
                then Reconcile.AppliedNow(env.root, old(scheduler.procs)[p], fullInfo[p].nice, preset)
                else old(scheduler.procs)[p]
    {
      var todo := set p | p in fullInfo && fullInfo[p].name == name;
      ghost var all := todo;
      while todo != {}
        invariant todo <= all && scheduler.procs.Keys == old(scheduler.procs).Keys
        invariant forall p | p in scheduler.procs :: scheduler.procs[p] ==
                    if p in all && p !in todo
                    then Reconcile.AppliedNow(env.root, old(scheduler.procs)[p], fullInfo[p].nice, preset)
                    else old(scheduler.procs)[p]
        decreases |todo|
      {
        var p :| p in todo;
        todo := todo - {p};
        scheduler.ApplyNow(env.root, p, fullInfo[p].nice, preset);
      }
    }

    method HandleSetTier(pid: Pid, tier: Tier) returns (known: bool)
      modifies this`ruleset, sync, scheduler
      ensures View() == Handle(old(View()), SetTier(pid, tier)) && known == SendsSnapshot(old(View()), SetTier(pid, tier))
      ensures scheduler.procs == ProcsAtOnce(env, old(View()), SetTier(pid, tier), old(scheduler.procs))
    {
      known := pid in fullInfo;
      if known {
        var name := fullInfo[pid].name;
        sync.UpsertPresetRule(name, tier);
        ruleset := FromConfig(sync.active);
        ApplyPresetNow(name, TierPreset(tier));
        assert scheduler.procs == ProcsAtOnce(env, old(View()), SetTier(pid, tier), old(scheduler.procs));
      } else {
        NothingAtOnce(env, View(), SetTier(pid, tier), scheduler.procs);
      }
    }

    /** One client message: its effect on the loop, on the processes at once, and the snapshot that answers it. */
    method HandleClientMsg(msg: ClientMsg, dead: set<ClientId>)
      modifies this, sync, scheduler, ipc
      ensures View() == Handle(old(View()), msg) && unchanged(`fullInfo, `sentInitialSnapshot)
      ensures scheduler.procs == ProcsAtOnce(env, old(View()), msg, old(scheduler.procs))
      ensures ipc.View() ==
              if SendsSnapshot(old(View()), msg) then Broadcast(old(ipc.View()), Snapshot(fullInfo), dead) else old(ipc.View())
    {
      var answered := CarryOut(msg);
      if answered {
        BroadcastSnapshot(dead);
      }
    }

    /** The message's effect on loop and processes; `answered` tells whether a snapshot follows. */
    method CarryOut(msg: ClientMsg) returns (answered: bool)
      modifies this`ruleset, this`pendingPrompts, this`instanceGames, this`suppressedUntilExit, sync, scheduler
      ensures View() == Handle(old(View()), msg) && answered == SendsSnapshot(old(View()), msg)
      ensures scheduler.procs == ProcsAtOnce(env, old(View()), msg, old(scheduler.procs))
    {
      answered := true;
      if !msg.SetTier? {
        NothingAtOnce(env, View(), msg, scheduler.procs);
      }
      match msg
      case RequestSnapshot =>
      case SetPollInterval(ms) =>
        sync.SetPollInterval(Max(MIN_POLL_INTERVAL_MS, Min(ms, MAX_POLL_INTERVAL_MS)));
      case SetTier(pid, tier) =>
        answered := HandleSetTier(pid, tier);
      case SetCap(name, pct) =>
        sync.UpsertCapRule(name, pct);
        ruleset := FromConfig(sync.active);
      case ConfirmGame(name, answer) =>
        Retain(name);
        match answer {
          case Yes => sync.UpsertPresetRule(name, Game);
          case No => sync.UpsertPresetRule(name, Software);
          case NotNow =>
            instanceGames := instanceGames + {name};
            suppressedUntilExit := suppressedUntilExit + {name};
        }
        ruleset := FromConfig(sync.active);
    }

    /** The flags of a process, from the cache unless the name is undecided. */
    method Flags(e: Entry) returns (flags: GameFlags)
      modifies this`flagCache
      ensures flags == FlagsOf(env, old(View()), e)
      ensures flagCache == ScannedFlags(env, old(View()), e)
    {
      var undecided := !HasRule(ruleset, e.name) && e.name !in promptedNames && e.name !in suppressedUntilExit;
      var ours := e.pid == env.ourPid || IsSelfBinary(e.name);
      var untouchable := e.uid != env.ourUid && !env.root;
      flags := NoFlags;
      if !ours && !untouchable {
        if e.pid in flagCache && !undecided {
          flags := flagCache[e.pid];
        } else {
          flags := DetectGame(e);
          flagCache := flagCache[e.pid := flags];
        }
        if !IsDeCritical(e.name) {
          flags := flags.(known := e.inCatalog);
        }
      }
    }

    /** The per-process part of a poll: flags, decision, row. */
    method Judge(e: Entry) returns (resolved: Resolved, row: Row)
      modifies this`flagCache
      ensures resolved == Decide(env, old(View()), e) && row == RowOf(env, old(View()), e)
      ensures flagCache == ScannedFlags(env, old(View()), e)
    {
      var flags := Flags(e);
      resolved := Resolve(ruleset, e.name, flags, e.age);
      if IsDeCritical(e.name) {
        resolved := Nothing;
      }
      if resolved.Nothing? && e.name in instanceGames {
        resolved := Apply(AutoTarget(ruleset.autoGame));
      }
      if e.uid != env.ourUid && !env.root {
        resolved := Nothing;
      }
      row := Row(e.pid, e.name, flags.IsGame(), if resolved.Apply? then resolved.target.tier else None, e.nice);
    }

    /** One process: judge it, reconcile its cgroup, its nice and I/O priority, and make its entry of the table. */
    method ScanOne(e: Entry) returns (resolved: Resolved, info: Info)
      requires e.pid in scheduler.procs ==> scheduler.procs[e.pid].nice == e.nice
      modifies this`flagCache, cgroups, cgroups.system, scheduler
      ensures resolved == Decide(env, old(View()), e)
      ensures info == InfoOf(e, RowOf(env, old(View()), e), scheduler.procs, cgroups.World())
      ensures View() == old(View()).(flags := ScannedFlags(env, old(View()), e))
      ensures var x := WantOf(e, resolved); cgroups.World() == Enrolment.SyncPid(old(cgroups.World()), x.pid, x.key, x.limits)
      ensures scheduler.procs ==
                if resolved.Apply? && e.pid in old(scheduler.procs)
                then old(scheduler.procs)[e.pid := Reconcile.Applied(env.root, old(scheduler.procs)[e.pid], resolved.target)]
                else old(scheduler.procs)
    {
      var row;
      resolved, row := Judge(e);
      var want := WantOf(e, resolved);
      cgroups.SyncPid(want.pid, want.key, want.limits);
      if resolved.Apply? {
        scheduler.ApplyTo(env.root, e.pid, e.nice, resolved.target);
      }
      var ioClass, ioPriority := scheduler.GetIoprio(e.pid);
      var capped := cgroups.IsCapped(e.pid);
      info := Tables.Info(
        e.pid, e.shown.ppid, e.name, e.shown.user, e.shown.cpu, e.shown.memKb, e.shown.status, e.nice, ioClass, ioPriority,
        row.tier, capped, row.gameDetected, e.shown.exe, e.shown.startSecs);
    }

    /** The scan loop. */
    method ScanAll(entries: seq<Entry>) returns (namesSeen: set<string>, curInfo: map<Pid, Info>)
      requires DistinctPids(entries) && IsFreshScan(entries, scheduler.procs)
      modifies this`flagCache, cgroups, cgroups.system, scheduler
      ensures namesSeen == NamesSeen(entries)
      ensures curInfo == InfoTable(env, old(View()), old(scheduler.procs), old(cgroups.World()), entries)
      ensures flagCache == ScanFlags(env, old(View()), entries)
      ensures cgroups.World() == SelfHealing.SyncAll(old(cgroups.World()), WantsOf(env, old(View()), entries))
      ensures scheduler.procs == Reconcile.AppliedAll(env.root, old(scheduler.procs), TargetsOf(env, old(View()), entries))
    {
      namesSeen, curInfo := {}, map[];
      ghost var d, w, procs := View(), cgroups.World(), scheduler.procs;
      for i := 0 to |entries|
        invariant namesSeen == NamesSeen(entries[..i]) && curInfo == InfoTable(env, d, procs, w, entries[..i])
        invariant View() == MidScan(env, d, entries[..i])
        invariant cgroups.World() == SelfHealing.SyncAll(w, WantsOf(env, d, entries[..i]))
        invariant scheduler.procs == Reconcile.AppliedAll(env.root, procs, TargetsOf(env, d, entries[..i]))
      {
        var e := entries[i];
        ScanStep(env, d, entries, i);
        StillFresh(env, d, entries, procs, i);
        TargetStep(env, d, entries, procs, i);
        TableStep(env, d, procs, w, entries, i);
        SyncAllAppend(w, WantsOf(env, d, entries[..i]), WantOf(e, Decide(env, View(), e)));
        namesSeen := namesSeen + {e.name};
        var resolved, info := ScanOne(e);
        curInfo := curInfo[e.pid := info];
      }
      assert entries[..|entries|] == entries;
    }

    /** Let the manager forget what has exited. */
    method ForgetExited(exited: seq<Pid>)
      modifies cgroups, cgroups.system
      ensures cgroups.World() == SelfHealing.ForgetAll(old(cgroups.World()), exited)
    {
      ghost var w := cgroups.World();
      for i := 0 to |exited|
        invariant cgroups.World() == SelfHealing.ForgetAll(w, exited[..i])
      {
        ForgetAllAppend(w, exited[..i], exited[i]);
        assert exited[..i + 1] == exited[..i] + [exited[i]];
        cgroups.Forget(exited[i]);
      }
      assert exited[..|exited|] == exited;
    }

    /** Forget the names nobody carries any more. */
    method Prune(namesSeen: set<string>)
      modifies this`promptedNames, this`suppressedUntilExit, this`instanceGames
      ensures promptedNames == old(promptedNames) * namesSeen
      ensures suppressedUntilExit == old(suppressedUntilExit) * namesSeen
      ensures instanceGames == old(instanceGames) * namesSeen
    {
      var prompted, suppressed, instance := promptedNames, suppressedUntilExit, instanceGames;
      var todo := prompted + suppressed + instance;
      while todo != {}
        invariant forall n :: n in prompted <==> n in promptedNames && (n in namesSeen || n in todo)
        invariant forall n :: n in suppressed <==> n in suppressedUntilExit && (n in namesSeen || n in todo)
        invariant forall n :: n in instance <==> n in instanceGames && (n in namesSeen || n in todo)
        decreases |todo|
      {
        var name :| name in todo;
        todo := todo - {name};
        if name !in namesSeen {
          prompted, suppressed, instance := prompted - {name}, suppressed - {name}, instance - {name};
        }
      }
      promptedNames, suppressedUntilExit, instanceGames := prompted, suppressed, instance;
    }

    method FreshGameNames() returns (out: seq<Prompt>)
      ensures IsFreshList(env, View(), out)
    {
      out := [];
      var todo := fullInfo.Keys;
      while todo != {}
        invariant todo <= fullInfo.Keys
        invariant forall a :: a in out <==>
                    exists p :: p in fullInfo && p !in todo && IsFresh(env, View(), RowsOf(fullInfo)[p])
                             && a == Prompt(fullInfo[p].name, fullInfo[p].pid)
        decreases |todo|
      {
        var p :| p in todo;
        todo := todo - {p};
        var info := fullInfo[p];
        if info.gameDetected && info.name !in env.knownNames && !HasRule(ruleset, info.name)
           && info.name !in promptedNames && info.name !in suppressedUntilExit
        {
          out := out + [Prompt(info.name, info.pid)];
        }
      }
      SortDedupSorts(out);
      out := SortDedup(out);
    }

    /** Ask about one name: the clients, if there is one. */
    method Ask(a: Prompt, dead: set<ClientId>)
      modifies this`promptedNames, this`pendingPrompts, this`instanceGames, this`suppressedUntilExit, this`asked, ipc
      ensures View() == AskOne(old(View()), a, old(ipc.clients) != map[])
      ensures ipc.View() == Broadcast(old(ipc.View()), Replica.Other, dead)
    {
      promptedNames := promptedNames + {a.name};
      if ipc.clients != map[] {
        pendingPrompts := pendingPrompts + [a];
        asked := asked + {a.name};
        ipc.Broadcast(Replica.Other, dead);
      } else {
        NobodyToTell(ipc.View(), dead);
        instanceGames := instanceGames + {a.name};
        suppressedUntilExit := suppressedUntilExit + {a.name};
      }
    }

    /** Ask about each name. */
    method AskEach(asks: seq<Prompt>, dead: nat -> set<ClientId>)
      requires forall i, j | 0 <= i < j < |asks| :: asks[i] != asks[j]
      modifies this`promptedNames, this`pendingPrompts, this`instanceGames, this`suppressedUntilExit, this`asked, ipc
      ensures View() == AskAll(old(View()), asks, HeardBy(old(ipc.View()), asks, dead))
      ensures ipc.View() == PromptsTold(old(ipc.View()), asks, dead)
    {
      ghost var d, s, heard := View(), ipc.View(), HeardBy(ipc.View(), asks, dead);
      assert asks[..0] == [];
      AskNone(d, heard);
      for i := 0 to |asks|
        invariant View() == AskAll(d, asks[..i], heard) && ipc.View() == PromptsTold(s, asks[..i], dead)
      {
        AskStep(d, s, asks, dead, i);
        Ask(asks[i], dead(i));
      }
      assert asks[..|asks|] == asks;
    }

    /** The end of a poll: the first one sends a snapshot, later ones the difference. */
    method TellPoll(diff: Tables.Diff, dead: set<ClientId>)
      modifies this`sentInitialSnapshot, ipc
      ensures sentInitialSnapshot
      ensures ipc.View() ==
              match Replica.PollMsg(old(sentInitialSnapshot), fullInfo, diff)
              case Some(msg) => Broadcast(old(ipc.View()), msg, dead)
              case None => old(ipc.View())
    {
      if !sentInitialSnapshot {
        sentInitialSnapshot := true;
        BroadcastSnapshot(dead);
      } else if !diff.IsEmpty() {
        ipc.Broadcast(Replica.Changes(diff), dead);
      }
    }

    /** Sweep, and let the manager forget what has exited. */
    method ReleaseCgroups(critical: set<Pid>, exited: seq<Pid>) returns (ghost order: seq<Cgroupfs.Dir>)
      modifies cgroups, cgroups.system
      ensures cgroups.World() ==
              SelfHealing.ForgetAll(Sweeping.Sweep(old(cgroups.World()), critical, order).(reasserted := false), exited)
    {
      order := cgroups.SweepStrays(critical);
      cgroups.ClearControllersReasserted();
      ForgetExited(exited);
    }

    /** Keep the new table, and of the bookkeeping what concerns names still seen and pids still there. */
    method Remember(namesSeen: set<string>, curInfo: map<Pid, Info>)
      modifies this`promptedNames, this`suppressedUntilExit, this`instanceGames, this`flagCache, this`fullInfo
      ensures View() == Pruned(old(View()), namesSeen, RowsOf(curInfo), old(flagCache)) && fullInfo == curInfo
    {
      assert RowsOf(fullInfo).Keys == fullInfo.Keys && RowsOf(curInfo).Keys == curInfo.Keys;
      flagCache := flagCache - (fullInfo.Keys - curInfo.Keys);
      fullInfo := curInfo;
      Prune(namesSeen);
    }

    /** The cgroups of a poll and its table: assert, scan, compare with the table before, sweep, forget the exited. */
    method ScanAndRelease(entries: seq<Entry>, critical: set<Pid>)
      returns (namesSeen: set<string>, curInfo: map<Pid, Info>, diff: Tables.Diff, ghost order: seq<Cgroupfs.Dir>)
      requires DistinctPids(entries) && IsFreshScan(entries, scheduler.procs)
      modifies this`flagCache, cgroups, cgroups.system, scheduler
      ensures namesSeen == NamesSeen(entries) && flagCache == ScanFlags(env, old(View()), entries)
      ensures curInfo ==
              InfoTable(env, old(View()), old(scheduler.procs), Enrolment.EnsureControllersOf(old(cgroups.World())), entries)
      ensures Tables.IsDiff(diff, fullInfo, curInfo) && RowsOf(curInfo) == ScanTable(env, old(View()), entries)
      ensures cgroups.World() ==
              SelfHealing.Poll(old(cgroups.World()), WantsOf(env, old(View()), entries), critical, order, diff.removed)
      ensures scheduler.procs == Reconcile.AppliedAll(env.root, old(scheduler.procs), TargetsOf(env, old(View()), entries))
    {
      ghost var d, procs := View(), scheduler.procs;
      cgroups.EnsureControllers();
      ghost var w := cgroups.World();
      namesSeen, curInfo := ScanAll(entries);
      InfoTableMeaning(env, d, procs, w, entries);
      diff := Tables.DiffTables(fullInfo, curInfo);
      order := ReleaseCgroups(critical, diff.removed);
    }

    /** Keep the new table, and ask about the names it shows that need asking about. */
    method AskAboutNew(namesSeen: set<string>, curInfo: map<Pid, Info>, dead: nat -> set<ClientId>) returns (asks: seq<Prompt>)
      modifies this, ipc
      ensures fullInfo == curInfo && sentInitialSnapshot == old(sentInitialSnapshot)
      ensures var d := Pruned(old(View()), namesSeen, RowsOf(curInfo), old(flagCache));
        IsFreshList(env, d, asks) && View() == AskAll(d, asks, HeardBy(old(ipc.View()), asks, dead))
      ensures ipc.View() == PromptsTold(old(ipc.View()), asks, dead)
    {
      Remember(namesSeen, curInfo);
      asks := FreshGameNames();
      FreshAreDistinct(env, View(), asks);
      AskEach(asks, dead);
    }

    method AskAndTell(namesSeen: set<string>, curInfo: map<Pid, Info>, diff: Tables.Diff, dead: nat -> set<ClientId>)
      returns (asks: seq<Prompt>)
      modifies this, ipc
      ensures fullInfo == curInfo && sentInitialSnapshot
      ensures var d := Pruned(old(View()), namesSeen, RowsOf(curInfo), old(flagCache));
        IsFreshList(env, d, asks) && View() == AskAll(d, asks, HeardBy(old(ipc.View()), asks, dead))
      ensures ipc.View() == PollTold(old(ipc.View()), asks, old(sentInitialSnapshot), curInfo, diff, dead)
    {
      asks := AskAboutNew(namesSeen, curInfo, dead);
      TellPoll(diff, dead(|asks|));
    }

    /** One poll.  `critical` are the processes desktop-critical when the sweep looks at them; `dead(i)` the clients found
        gone by the poll's i-th broadcast. */
    method Poll(entries: seq<Entry>, critical: set<Pid>, dead: nat -> set<ClientId>)
      returns (asks: seq<Prompt>, diff: Tables.Diff, ghost order: seq<Cgroupfs.Dir>)
      requires DistinctPids(entries) && IsFreshScan(entries, scheduler.procs)
      modifies this, cgroups, cgroups.system, scheduler, ipc
      ensures IsFreshList(env, Scanned(env, old(View()), entries), asks)
      ensures View() == PollCycle(env, old(View()), entries, asks, HeardBy(old(ipc.View()), asks, dead))
      ensures fullInfo ==
              InfoTable(env, old(View()), old(scheduler.procs), Enrolment.EnsureControllersOf(old(cgroups.World())), entries)
      ensures Tables.IsDiff(diff, old(fullInfo), fullInfo)
      ensures sentInitialSnapshot
      ensures ipc.View() == PollTold(old(ipc.View()), asks, old(sentInitialSnapshot), fullInfo, diff, dead)
      ensures cgroups.World() ==
              SelfHealing.Poll(old(cgroups.World()), WantsOf(env, old(View()), entries), critical, order, diff.removed)
      ensures scheduler.procs == Reconcile.AppliedAll(env.root, old(scheduler.procs), TargetsOf(env, old(View()), entries))
    {
      ghost var d := View();
      var namesSeen, curInfo;
      namesSeen, curInfo, diff, order := ScanAndRelease(entries, critical);
      ScannedMid(env, d, entries);
      asks := AskAndTell(namesSeen, curInfo, diff, dead);
    }
  }

  lemma {:induction false} TableKeys(env: Env, d: Daemon, procs: Reconcile.Procs, w: Enrolment.World, entries: seq<Entry>)
    ensures InfoTable(env, d, procs, w, entries).Keys == PidsSeen(entries)
    decreases entries
  {
    if entries != [] {
      var rest, last := entries[..|entries| - 1], entries[|entries| - 1];
      TableKeys(env, d, procs, w, rest);
      PidsOneMore(entries);
    }
  }

  /** The pids that a poll forgets are those of the table before that the scan has not seen. */
  lemma RemovedIff(
    env: Env, d: Daemon, procs: Reconcile.Procs, w: Enrolment.World, entries: seq<Entry>, prev: map<Pid, Info>,
    diff: Tables.Diff, p: Pid)
    requires Tables.IsDiff(diff, prev, InfoTable(env, d, procs, w, entries))
    ensures p in diff.removed <==> p in prev && p !in PidsSeen(entries)
  {
    TableKeys(env, d, procs, w, entries);
  }

  lemma ScannedMid(env: Env, d: Daemon, entries: seq<Entry>)
    ensures var mid := MidScan(env, d, entries);
      Pruned(mid, NamesSeen(entries), ScanTable(env, d, entries), mid.flags) == Scanned(env, d, entries)
  {
  }

  lemma NobodyToTell(s: Replica.Server, dead: set<ClientId>)
    requires s.clients == map[]
    ensures Broadcast(s, Replica.Other, dead) == s
  {
  }

  lemma HeardIff(s: Replica.Server, asks: seq<Prompt>, dead: nat -> set<ClientId>, i: nat)
    requires i < |asks| && forall j, k | 0 <= j < k < |asks| :: asks[j] != asks[k]
    ensures asks[i] in HeardBy(s, asks, dead) <==> PromptsTold(s, asks[..i], dead).clients != map[]
  {
  }

  lemma AskStep(d: Daemon, s: Replica.Server, asks: seq<Prompt>, dead: nat -> set<ClientId>, i: nat)
    requires i < |asks| && forall j, k | 0 <= j < k < |asks| :: asks[j] != asks[k]
    ensures var heard, s' := HeardBy(s, asks, dead), PromptsTold(s, asks[..i], dead);
      && AskAll(d, asks[..i + 1], heard) == AskOne(AskAll(d, asks[..i], heard), asks[i], s'.clients != map[])
      && PromptsTold(s, asks[..i + 1], dead) == Broadcast(s', Replica.Other, dead(i))
  {
    HeardIff(s, asks, dead, i);
    AskOneMore(d, asks, HeardBy(s, asks, dead), i);
    assert asks[..i + 1][..i] == asks[..i];
  }

  lemma FreshAreDistinct(env: Env, d: Daemon, asks: seq<Prompt>)
    requires IsFreshList(env, d, asks)
    ensures forall i, j | 0 <= i < j < |asks| :: asks[i] != asks[j]
  {
    forall i, j | 0 <= i < j < |asks|
      ensures asks[i] != asks[j]
    {
      BeforeTotal(asks[i].name, asks[j].name);
    }
  }

  function AskOne(d: Daemon, a: Prompt, heard: bool): Daemon {
    if heard then d.(prompted := d.prompted + {a.name}, pending := d.pending + [a], asked := d.asked + {a.name})
    else d.(prompted := d.prompted + {a.name}, instance := d.instance + {a.name}, suppressed := d.suppressed + {a.name})
  }

  lemma AskNone(d: Daemon, heard: set<Prompt>)
    ensures AskAll(d, [], heard) == d
  {
  }

  lemma NamesOneMore(asks: seq<Prompt>, a: Prompt)
    ensures AskedNames(asks + [a]) == AskedNames(asks) + {a.name}
  {
  }

  lemma HeardOneMore(asks: seq<Prompt>, a: Prompt, heard: set<Prompt>)
    ensures Heard(asks + [a], heard) == if a in heard then Heard(asks, heard) + [a] else Heard(asks, heard)
  {
    assert (asks + [a])[..|asks|] == asks;
  }

  lemma UnheardOneMore(asks: seq<Prompt>, a: Prompt, heard: set<Prompt>)
    ensures Unheard(asks + [a], heard) == if a in heard then Unheard(asks, heard) else Unheard(asks, heard) + {a.name}
  {
  }

  lemma AskOneMore(d: Daemon, asks: seq<Prompt>, heard: set<Prompt>, i: nat)
    requires i < |asks|
    ensures AskAll(d, asks[..i + 1], heard) == AskOne(AskAll(d, asks[..i], heard), asks[i], asks[i] in heard)
  {
    assert asks[..i + 1] == asks[..i] + [asks[i]];
    AskAppended(d, asks[..i], asks[i], heard);
  }

  lemma UnionOneMore(s: set<string>, t: set<string>, x: string)
    ensures s + (t + {x}) == s + t + {x}
  {
  }

  lemma AskAppended(d: Daemon, xs: seq<Prompt>, a: Prompt, heard: set<Prompt>)
    ensures AskAll(d, xs + [a], heard) == AskOne(AskAll(d, xs, heard), a, a in heard)
  {
    NamesOneMore(xs, a);
    HeardOneMore(xs, a, heard);
    UnheardOneMore(xs, a, heard);
    UnionOneMore(d.prompted, AskedNames(xs), a.name);
    if a in heard {
      NamesOneMore(Heard(xs, heard), a);
      UnionOneMore(d.asked, AskedNames(Heard(xs, heard)), a.name);
      assert d.pending + (Heard(xs, heard) + [a]) == d.pending + Heard(xs, heard) + [a];
    } else {
      UnionOneMore(d.instance, Unheard(xs, heard), a.name);
      UnionOneMore(d.suppressed, Unheard(xs, heard), a.name);
    }
  }
}
