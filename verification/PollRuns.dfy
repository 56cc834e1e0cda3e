/** Every run of the main loop: the rule index stays coherent, prompts are disciplined, exclusions hold. */
module PollRuns {
  import opened Wrappers
  import opened Config
  import opened Rules
  import opened PollLoop
  import opened Edits
  import SyncSteps

  datatype Event =
    | Outside(disk: SyncSteps.Disk)
    | Files(paths: seq<SyncSteps.Which>, now: nat)
    | Message(msg: ClientMsg)
    | Poll(entries: seq<Entry>, asks: seq<Prompt>, heard: set<Prompt>)

  ghost predicate Enabled(env: Env, d: Daemon, e: Event) {
    e.Poll? ==> DistinctPids(e.entries) && IsFreshList(env, Scanned(env, d, e.entries), e.asks)
  }

  function Next(env: Env, d: Daemon, e: Event): Daemon {
    match e
    case Outside(disk) => d.(sync := d.sync.(disk := disk))
    case Files(paths, now) => Reload(d, paths, now)
    case Message(msg) => Handle(d, msg)
    case Poll(entries, asks, heard) => PollCycle(env, d, entries, asks, heard)
  }

  function Run(env: Env, d: Daemon, es: seq<Event>): Daemon
    decreases es
  {
    if es == [] then d else Next(env, Run(env, d, es[..|es| - 1]), es[|es| - 1])
  }

  ghost predicate CanRun(env: Env, d: Daemon, es: seq<Event>) {
    forall i | 0 <= i < |es| :: Enabled(env, Run(env, d, es[..i]), es[i])
  }

  lemma CanRunPrefix(env: Env, d: Daemon, es: seq<Event>, k: nat)
    requires CanRun(env, d, es) && k <= |es|
    ensures CanRun(env, d, es[..k])
  {
    forall i | 0 <= i < k
      ensures Enabled(env, Run(env, d, es[..k][..i]), es[..k][i])
    {
      assert es[..k][..i] == es[..i];
    }
  }

  /** A poll in which nobody carries the name. */
  predicate Misses(e: Event, name: string) { e.Poll? && name !in NamesSeen(e.entries) }

  // ----- the rule index -----

  lemma {:induction false} OnPathsKeepsActive(x: SyncSteps.State, paths: seq<SyncSteps.Which>, now: nat)
    ensures !OnPaths(x, paths, now).1 ==> OnPaths(x, paths, now).0.active == x.active
    decreases paths
  {
    if paths != [] {
      OnPathsKeepsActive(x, paths[..|paths| - 1], now);
    }
  }

  lemma MtimesKeepActive(x: SyncSteps.State, now: nat)
    ensures !SyncSteps.PollMtimes(x, now).1 ==> SyncSteps.PollMtimes(x, now).0.active == x.active
  {
  }

  lemma TickKeepsActive(x: SyncSteps.State, now: nat)
    ensures SyncSteps.Tick(x, now).0.active == x.active
  {
  }

  lemma ReloadKeepsCoherence(d: Daemon, paths: seq<SyncSteps.Which>, now: nat)
    requires d.rules == Build(d.sync.active)
    ensures Reload(d, paths, now).rules == Build(Reload(d, paths, now).sync.active)
  {
    OnPathsKeepsActive(d.sync, paths, now);
    MtimesKeepActive(OnPaths(d.sync, paths, now).0, now);
    TickKeepsActive(SyncSteps.PollMtimes(OnPaths(d.sync, paths, now).0, now).0, now);
  }

  lemma PollIntervalKeepsIndex(cfg: AppConfig, ms: nat)
    ensures Build(cfg.(pollIntervalMs := Some(ms))) == Build(cfg)
  {
  }

  lemma HandleKeepsCoherence(d: Daemon, msg: ClientMsg)
    requires d.rules == Build(d.sync.active)
    ensures Handle(d, msg).rules == Build(Handle(d, msg).sync.active)
  {
    match msg
    case SetPollInterval(ms) => PollIntervalKeepsIndex(d.sync.active, Max(MIN_POLL_INTERVAL_MS, Min(ms, MAX_POLL_INTERVAL_MS)));
    case _ =>
  }

  lemma {:induction false} IndexFollowsConfig(env: Env, x: SyncSteps.State, boot: nat, es: seq<Event>)
    ensures var d := Run(env, Booted(x, boot), es); d.rules == Build(d.sync.active)
    decreases es
  {
    if es != [] {
      IndexFollowsConfig(env, x, boot, es[..|es| - 1]);
      var d := Run(env, Booted(x, boot), es[..|es| - 1]);
      match es[|es| - 1] {
        case Files(paths, now) => ReloadKeepsCoherence(d, paths, now);
        case Message(msg) => HandleKeepsCoherence(d, msg);
        case Outside(_) =>
        case Poll(_, _, _) =>
      }
    }
  }

  /** Rule-index coherence: at every moment of every run, whatever is edited, reloaded or written, the index in use
      answers every name as a scan of the active config's rules in key order that keeps the last match. */
  lemma {:induction false} IndexCoherence(env: Env, x: SyncSteps.State, boot: nat, es: seq<Event>, name: string)
    ensures var d := Run(env, Booted(x, boot), es); var rules := d.sync.active.rules;
      && Lookup(d.rules, name) == Scan(SortedKeys(rules.Keys), rules, name)
      && (HasRule(d.rules, name) <==> exists k :: k in rules && rules[k].matchName == name)
  {
    IndexFollowsConfig(env, x, boot, es);
    var cfg := Run(env, Booted(x, boot), es).sync.active;
    BuildMeaning(cfg);
    ScanFinds(SortedKeys(cfg.rules.Keys), cfg.rules, name);
  }

  // ----- the scan -----

  lemma LastPidIsNew(entries: seq<Entry>)
    requires DistinctPids(entries) && entries != []
    ensures var rest, last := entries[..|entries| - 1], entries[|entries| - 1];
      && DistinctPids(rest) && last.pid !in PidsSeen(rest)
      && PidsSeen(entries) == PidsSeen(rest) + {last.pid}
      && forall e :: e in entries <==> e in rest || e == last
  {
    var rest, last := entries[..|entries| - 1], entries[|entries| - 1];
    assert entries == rest + [last];
    forall e | e in rest
      ensures e.pid != last.pid
    {
      var i :| 0 <= i < |rest| && rest[i] == e;
      assert entries[i].pid != entries[|entries| - 1].pid;
    }
  }

  lemma {:induction false} TableMeaning(env: Env, d: Daemon, entries: seq<Entry>)
    requires DistinctPids(entries)
    ensures ScanTable(env, d, entries).Keys == PidsSeen(entries)
    ensures forall e | e in entries :: ScanTable(env, d, entries)[e.pid] == RowOf(env, d, e)
    decreases entries
  {
    if entries != [] {
      var rest, last := entries[..|entries| - 1], entries[|entries| - 1];
      LastPidIsNew(entries);
      TableMeaning(env, d, rest);
      assert ScanTable(env, d, entries) == ScanTable(env, d, rest)[last.pid := RowOf(env, d, last)];
      forall e | e in rest
        ensures e.pid in PidsSeen(rest) && e.pid != last.pid
      {
      }
    }
  }

  /** The process itself looks like a game that may be asked about: judged from this scan alone. */
  predicate LooksLikeGame(env: Env, e: Entry) {
    && !Ours(env, e) && !Untouchable(env, e) && !IsDeCritical(e.name)
    && (e.inCatalog || (!e.wineInternal && e.driFd && (e.steamEnv || e.fullscreen)))
  }

  lemma RowFreshIff(env: Env, d: Daemon, entries: seq<Entry>, e: Entry)
    requires e in entries
    ensures IsFresh(env, Scanned(env, d, entries), RowOf(env, d, e)) <==>
            LooksLikeGame(env, e) && e.name !in env.knownNames && Undecided(d, e.name)
  {
    assert e.name in NamesSeen(entries);
    assert Undecided(Scanned(env, d, entries), e.name) <==> Undecided(d, e.name);
    assert Undecided(d, e.name) ==> !UsesCache(d, e);
  }

  /** A poll asks about exactly those processes that this scan shows to look like games, whose name is not in the
      catalog, has no rule, and is neither asked about nor suppressed; what older polls cached plays no part. */
  lemma PromptIff(env: Env, d: Daemon, e: Event, a: Prompt)
    requires e.Poll? && Enabled(env, d, e)
    ensures a in e.asks <==>
            exists p :: p in e.entries && a == Prompt(p.name, p.pid) && LooksLikeGame(env, p)
                     && p.name !in env.knownNames && Undecided(d, p.name)
  {
    var d' := Scanned(env, d, e.entries);
    TableMeaning(env, d, e.entries);
    if a in e.asks {
      var k :| k in d'.table && IsFresh(env, d', d'.table[k]) && a == Prompt(d'.table[k].name, d'.table[k].pid);
      var p :| p in e.entries && p.pid == k;
      RowFreshIff(env, d, e.entries, p);
    }
    if p :| p in e.entries && a == Prompt(p.name, p.pid) && LooksLikeGame(env, p) && p.name !in env.knownNames && Undecided(d, p.name) {
      RowFreshIff(env, d, e.entries, p);
      assert p.pid in PidsSeen(e.entries);
      assert d'.table[p.pid] == RowOf(env, d, p);
    }
  }

  // ----- prompt discipline -----

  lemma {:induction false} AskedUntilMissed(env: Env, d: Daemon, es: seq<Event>, name: string)
    requires name in d.prompted && forall i | 0 <= i < |es| :: !Misses(es[i], name)
    ensures name in Run(env, d, es).prompted
    decreases es
  {
    if es != [] {
      AskedUntilMissed(env, d, es[..|es| - 1], name);
    }
  }

  lemma {:induction false} RunSplit(env: Env, d: Daemon, es: seq<Event>, i: nat)
    requires i <= |es|
    ensures Run(env, d, es) == Run(env, Run(env, d, es[..i]), es[i..])
    decreases es
  {
    if i == |es| {
      assert es[..i] == es;
    } else {
      var rest := es[..|es| - 1];
      RunSplit(env, d, rest, i);
      assert rest[..i] == es[..i];
      assert es[i..][..|es| - i - 1] == rest[i..];
    }
  }

  lemma StillAsked(env: Env, d: Daemon, es: seq<Event>, i: nat, j: nat, name: string)
    requires i < j < |es| && es[i].Poll? && name in AskedNames(es[i].asks)
    requires forall k | i < k < j :: !Misses(es[k], name)
    ensures name in Run(env, d, es[..j]).prompted
  {
    var after := Run(env, d, es[..i + 1]);
    assert es[..i + 1][..i] == es[..i];
    assert name in after.prompted;
    var between := es[..j][i + 1..];
    forall k | 0 <= k < |between|
      ensures !Misses(between[k], name)
    {
      assert between[k] == es[i + 1 + k];
    }
    AskedUntilMissed(env, after, between, name);
    RunSplit(env, d, es[..j], i + 1);
    assert es[..j][..i + 1] == es[..i + 1];
  }

  /** All prompts for a name are issued within a single poll as long as the name keeps appearing: between two polls
      that both ask about it there is one in which nobody carried it. */
  lemma OnePollOfPrompts(env: Env, d: Daemon, es: seq<Event>, i: nat, j: nat, name: string)
    requires CanRun(env, d, es) && i < j < |es| && es[i].Poll? && es[j].Poll?
    requires name in AskedNames(es[i].asks) && name in AskedNames(es[j].asks)
    ensures exists k :: i < k < j && Misses(es[k], name)
  {
    if forall k | i < k < j :: !Misses(es[k], name) {
      StillAsked(env, d, es, i, j, name);
      var a :| a in es[j].asks && a.name == name;
      PromptIff(env, Run(env, d, es[..j]), es[j], a);
      assert false;
    }
  }

  /** Whoever is asked about is covered by no rule of the active config and by no suppression, and when the poll is
      over only names seen in it are remembered as asked, suppressed or games of this instance. */
  lemma {:induction false} PromptsAreUncovered(env: Env, x: SyncSteps.State, boot: nat, es: seq<Event>, e: Event)
    requires e.Poll? && Enabled(env, Run(env, Booted(x, boot), es), e)
    ensures var d := Run(env, Booted(x, boot), es); var d' := Next(env, d, e);
      && (forall a | a in e.asks :: a.name !in d.suppressed && a.name !in d.prompted &&
            forall k | k in d.sync.active.rules :: d.sync.active.rules[k].matchName != a.name)
      && d'.prompted <= NamesSeen(e.entries) && d'.suppressed <= NamesSeen(e.entries) && d'.instance <= NamesSeen(e.entries)
  {
    var d := Run(env, Booted(x, boot), es);
    forall a | a in e.asks
      ensures a.name !in d.suppressed && a.name !in d.prompted && a.name in NamesSeen(e.entries)
      ensures forall k | k in d.sync.active.rules :: d.sync.active.rules[k].matchName != a.name
    {
      PromptIff(env, d, e, a);
      IndexCoherence(env, x, boot, es, a.name);
    }
  }

  // ----- "not now" -----

  lemma {:induction false} InstanceUntilMissed(env: Env, d: Daemon, es: seq<Event>, name: string)
    requires name in d.instance && name in d.suppressed && forall i | 0 <= i < |es| :: !Misses(es[i], name)
    ensures name in Run(env, d, es).instance && name in Run(env, d, es).suppressed
    decreases es
  {
    if es != [] {
      InstanceUntilMissed(env, d, es[..|es| - 1], name);
    }
  }

  /** From a "not now" on, until a poll in which nobody carries the name, nobody is asked about it again and its
      touchable processes get the auto-game preset as long as no rule says otherwise; that poll forgets the answer. */
  lemma NotNowLastsUntilExit(env: Env, d0: Daemon, es: seq<Event>, name: string, e: Event)
    requires forall i | 0 <= i < |es| :: !Misses(es[i], name)
    requires e.Poll?
    ensures var d := Run(env, Handle(d0, ConfirmGame(name, NotNow)), es);
      && (Enabled(env, d, e) ==> name !in AskedNames(e.asks))
      && (!HasRule(d.rules, name) ==> forall p: Entry | p.name == name && !Untouchable(env, p) ::
            Decide(env, d, p) == Apply(AutoTarget(d.rules.autoGame)))
      && (Enabled(env, d, e) && Misses(e, name) ==>
            name !in Next(env, d, e).instance && name !in Next(env, d, e).suppressed && name !in Next(env, d, e).prompted)
  {
    InstanceUntilMissed(env, Handle(d0, ConfirmGame(name, NotNow)), es, name);
    var d := Run(env, Handle(d0, ConfirmGame(name, NotNow)), es);
    if Enabled(env, d, e) {
      forall a | a in e.asks
        ensures a.name != name && a.name in NamesSeen(e.entries)
      {
        PromptIff(env, d, e, a);
      }
    }
  }

  // ----- the exclusion -----

  /** A "not now" naming `name` has been given and nobody has been seen without the name since. */
  predicate Stands(es: seq<Event>, name: string)
    decreases es
  {
    es != [] &&
    var e := es[|es| - 1];
    if e == Message(ConfirmGame(name, NotNow)) then true else !Misses(e, name) && Stands(es[..|es| - 1], name)
  }

  /** How one event changes what is remembered about a name that no poll asks about. */
  predicate StepOf(d: Daemon, e: Event, d': Daemon, name: string) {
    && name !in d'.asked && name !in d'.prompted
    && (name in d'.instance <==> e == Message(ConfirmGame(name, NotNow)) || (!Misses(e, name) && name in d.instance))
  }

  lemma CriticalPollStep(env: Env, d: Daemon, e: Event, name: string)
    requires e.Poll? && Enabled(env, d, e) && IsDeCritical(name) && name !in d.asked && name !in d.prompted
    ensures StepOf(d, e, Next(env, d, e), name)
  {
    CriticalNeverAsked(env, d, e, name);
  }

  lemma CriticalMessageStep(env: Env, d: Daemon, e: Event, name: string)
    requires e.Message? && name !in d.asked && name !in d.prompted
    ensures StepOf(d, e, Next(env, d, e), name)
  {
  }

  lemma {:induction false} CriticalInstanceIff(env: Env, x: SyncSteps.State, boot: nat, es: seq<Event>, name: string)
    requires CanRun(env, Booted(x, boot), es) && IsDeCritical(name)
    ensures var d := Run(env, Booted(x, boot), es);
      name !in d.asked && name !in d.prompted && (name in d.instance <==> Stands(es, name))
    decreases es
  {
    if es != [] {
      var rest, e := es[..|es| - 1], es[|es| - 1];
      CanRunPrefix(env, Booted(x, boot), es, |es| - 1);
      CriticalInstanceIff(env, x, boot, rest, name);
      var d := Run(env, Booted(x, boot), rest);
      assert Enabled(env, d, e);
      match e {
        case Poll(_, _, _) => CriticalPollStep(env, d, e, name);
        case Message(_) => CriticalMessageStep(env, d, e, name);
        case Outside(_) =>
        case Files(_, _) =>
      }
      assert StepOf(d, e, Next(env, d, e), name);
    }
  }

  lemma {:induction false} HeardIn(asks: seq<Prompt>, heard: set<Prompt>)
    ensures forall a | a in Heard(asks, heard) :: a in asks
    decreases asks
  {
    if asks != [] {
      HeardIn(asks[..|asks| - 1], heard);
    }
  }

  lemma CriticalNeverAsked(env: Env, d: Daemon, e: Event, name: string)
    requires e.Poll? && Enabled(env, d, e) && IsDeCritical(name)
    ensures name !in AskedNames(e.asks) && name !in Unheard(e.asks, e.heard) && name !in AskedNames(Heard(e.asks, e.heard))
  {
    forall a | a in e.asks
      ensures a.name != name
    {
      PromptIff(env, d, e, a);
    }
    HeardIn(e.asks, e.heard);
  }

  /** Exclusion over whole runs, exactly: whatever the rules, the cached flags and the catalog say, a poll resolves a
      desktop-critical process to a target if and only if the daemon may touch it and somebody answered "not now" for
      its name and it has not been seen gone since; and it never resolves another user's process, unless it is root. */
  lemma {:induction false} Exclusion(env: Env, x: SyncSteps.State, boot: nat, es: seq<Event>, p: Entry)
    requires CanRun(env, Booted(x, boot), es)
    ensures var d := Run(env, Booted(x, boot), es);
      && (IsDeCritical(p.name) ==> (Decide(env, d, p).Apply? <==> !Untouchable(env, p) && Stands(es, p.name)))
      && (p.uid != env.ourUid && !env.root ==> Decide(env, d, p) == Nothing)
  {
    if IsDeCritical(p.name) {
      CriticalInstanceIff(env, x, boot, es, p.name);
    }
  }

  /** Every "not now" names something a client was really asked about. */
  ghost predicate HonestAnswers(env: Env, d: Daemon, es: seq<Event>) {
    forall i | 0 <= i < |es| && es[i].Message? && es[i].msg.ConfirmGame? && es[i].msg.answer.NotNow? ::
      es[i].msg.name in Run(env, d, es[..i]).asked
  }

  lemma {:induction false} StandsMeansAnswered(es: seq<Event>, name: string) returns (i: nat)
    requires Stands(es, name)
    ensures i < |es| && es[i] == Message(ConfirmGame(name, NotNow))
    decreases es
  {
    if es[|es| - 1] == Message(ConfirmGame(name, NotNow)) {
      i := |es| - 1;
    } else {
      i := StandsMeansAnswered(es[..|es| - 1], name);
    }
  }

  /** With honest answers no poll of any run resolves a desktop-critical process. */
  lemma {:induction false} HonestAnswersExclude(env: Env, x: SyncSteps.State, boot: nat, es: seq<Event>, p: Entry)
    requires CanRun(env, Booted(x, boot), es) && HonestAnswers(env, Booted(x, boot), es) && IsDeCritical(p.name)
    ensures Decide(env, Run(env, Booted(x, boot), es), p) == Nothing
  {
    Exclusion(env, x, boot, es, p);
    if Stands(es, p.name) {
      var i := StandsMeansAnswered(es, p.name);
      CanRunPrefix(env, Booted(x, boot), es, i);
      CriticalInstanceIff(env, x, boot, es[..i], p.name);
      assert false;
    }
  }

  /** A "not now" for the compositor, which nobody was asked about, makes the next poll give it the game preset. */
  lemma StrayAnswerReachesCompositor(env: Env, x: SyncSteps.State, boot: nat, p: Entry)
    requires p.name == "kwin_x11" && !Untouchable(env, p)
    ensures var es := [Message(ConfirmGame("kwin_x11", NotNow))]; var d := Run(env, Booted(x, boot), es);
      CanRun(env, Booted(x, boot), es) && IsDeCritical(p.name) && Decide(env, d, p) == Apply(AutoTarget(d.rules.autoGame))
  {
    var es := [Message(ConfirmGame("kwin_x11", NotNow))];
    assert Matches(DE_CRITICAL[1], p.name);
    assert es[..0] == [];
    assert Run(env, Booted(x, boot), []) == Booted(x, boot);
  }

  /** The longest name the kernel keeps of a process. */
  const COMM_LENGTH := 15

  /** The name under which a program of this name is seen. */
  function Cut(name: string): string { if |name| <= COMM_LENGTH then name else name[..COMM_LENGTH] }

  lemma CutEntriesAreMissed(i: nat)
    requires i < |DE_CRITICAL| && |DE_CRITICAL[i]| > COMM_LENGTH
    ensures !IsDeCritical(Cut(DE_CRITICAL[i]))
  {
    var name := Cut(DE_CRITICAL[i]);
    forall j | 0 <= j < |DE_CRITICAL|
      ensures !Matches(DE_CRITICAL[j], name)
    {
      assert i == 2 || i == 11 || i == 12;
      assert name[0] == 'k' ==> name[6] == 'a';
    }
  }

  /** An entry of the list excludes the program it names exactly if it is no longer than a name the kernel keeps; a
      longer one matches no process at all. */
  lemma EntryExcludesIff(i: nat)
    requires i < |DE_CRITICAL|
    ensures IsDeCritical(Cut(DE_CRITICAL[i])) <==> |DE_CRITICAL[i]| <= COMM_LENGTH
    ensures |DE_CRITICAL[i]| > COMM_LENGTH ==> forall p: Entry | |p.name| <= COMM_LENGTH :: !Matches(DE_CRITICAL[i], p.name)
  {
    if |DE_CRITICAL[i]| > COMM_LENGTH {
      CutEntriesAreMissed(i);
    } else {
      assert Matches(DE_CRITICAL[i], DE_CRITICAL[i]);
    }
  }

  /** A tier edit from the GUI renices at once, exclusion or not: it touches a process of the last poll exactly if it
      names one that carries the same name. */
  lemma TierEditTouchesIff(env: Env, x: SyncSteps.State, boot: nat, es: seq<Event>, last: Event, msg: ClientMsg, p: Entry)
    requires last.Poll? && Enabled(env, Run(env, Booted(x, boot), es), last) && p in last.entries && msg.SetTier?
    ensures var d := Next(env, Run(env, Booted(x, boot), es), last);
      p.pid in TouchedAtOnce(d, msg) <==> exists q :: q in last.entries && q.pid == msg.pid && q.name == p.name
  {
    var d0 := Run(env, Booted(x, boot), es);
    TableMeaning(env, d0, last.entries);
    var table := ScanTable(env, d0, last.entries);
    assert p.pid in PidsSeen(last.entries);
    assert table[p.pid].name == p.name;
    if msg.pid in table {
      var q :| q in last.entries && q.pid == msg.pid;
      assert table[msg.pid].name == q.name;
      forall r | r in last.entries && r.pid == msg.pid
        ensures r.name == q.name
      {
        assert table[r.pid] == RowOf(env, d0, r);
      }
    }
  }

  // ----- a tier edit, from the client to the next poll -----

  /** The config that a notice of `f` puts into effect, if any: not of an own write, and only if the file parses. */
  function LoadedBy(x: SyncSteps.State, f: SyncSteps.Which): Option<AppConfig> {
    if SyncSteps.IsSelfWrite(x, f) then None else SyncSteps.Load(x.disk, f)
  }

  function OrElse(later: Option<AppConfig>, earlier: Option<AppConfig>): Option<AppConfig> {
    if later.Some? then later else earlier
  }

  /** The last config loaded by these notices. */
  function LoadedByPaths(x: SyncSteps.State, paths: seq<SyncSteps.Which>): Option<AppConfig>
    decreases paths
  {
    if paths == [] then None
    else OrElse(LoadedBy(x, paths[|paths| - 1]), LoadedByPaths(x, paths[..|paths| - 1]))
  }

  /** The one loaded by a poll of the mtimes: of a file whose mtime is not the one last seen, root after local. */
  function LoadedByPoll(x: SyncSteps.State): Option<AppConfig> {
    OrElse(if Moved(x, SyncSteps.RootFile) then LoadedBy(x, SyncSteps.RootFile) else None,
           if Moved(x, SyncSteps.LocalFile) then LoadedBy(x, SyncSteps.LocalFile) else None)
  }

  predicate Moved(x: SyncSteps.State, f: SyncSteps.Which) {
    !(f in x.known && x.known[f] == SyncSteps.Mtime(x.disk, f))
  }

  /** The last config loaded over a run of the world outside and of file events. */
  function Loaded(env: Env, d: Daemon, es: seq<Event>): Option<AppConfig>
    decreases es
  {
    if es == [] then None
    else
      var front, e := es[..|es| - 1], es[|es| - 1];
      var x := Run(env, d, front).sync;
      OrElse(if e.Files? then OrElse(LoadedByPoll(x), LoadedByPaths(x, e.paths)) else None, Loaded(env, d, front))
  }

  predicate SameFor(x: SyncSteps.State, y: SyncSteps.State) {
    x.disk == y.disk && x.selfWrites == y.selfWrites && x.known == y.known
  }

  lemma {:induction false} PathsLoad(x: SyncSteps.State, paths: seq<SyncSteps.Which>, now: nat)
    ensures var y := OnPaths(x, paths, now).0; SameFor(x, y) && y.active == LoadedByPaths(x, paths).GetOr(x.active)
    decreases paths
  {
    if paths != [] {
      PathsLoad(x, paths[..|paths| - 1], now);
      PathLoads(OnPaths(x, paths[..|paths| - 1], now).0, paths[|paths| - 1], now);
    }
  }

  lemma PathLoads(x: SyncSteps.State, f: SyncSteps.Which, now: nat)
    ensures var y := SyncSteps.OnPathChanged(x, f, now).0; SameFor(x, y) && y.active == LoadedBy(x, f).GetOr(x.active)
  {
  }

  lemma PollLoads(x: SyncSteps.State, now: nat)
    ensures SyncSteps.PollMtimes(x, now).0.active == LoadedByPoll(x).GetOr(x.active)
  {
    var x1 := SyncSteps.PollOne(x, SyncSteps.LocalFile, now).0;
    assert x1.active == if Moved(x, SyncSteps.LocalFile) then LoadedBy(x, SyncSteps.LocalFile).GetOr(x.active) else x.active;
    assert Moved(x1, SyncSteps.RootFile) == Moved(x, SyncSteps.RootFile);
    assert LoadedBy(x1, SyncSteps.RootFile) == LoadedBy(x, SyncSteps.RootFile);
  }

  lemma FilesLoad(d: Daemon, paths: seq<SyncSteps.Which>, now: nat)
    ensures Reload(d, paths, now).sync.active == OrElse(LoadedByPoll(d.sync), LoadedByPaths(d.sync, paths)).GetOr(d.sync.active)
  {
    var x1 := OnPaths(d.sync, paths, now).0;
    PathsLoad(d.sync, paths, now);
    PollLoads(x1, now);
    assert LoadedByPoll(x1) == LoadedByPoll(d.sync);
    TickKeepsActive(SyncSteps.PollMtimes(x1, now).0, now);
  }

  /** What a client message asks of the config, if anything. */
  function EditOf(d: Daemon, msg: ClientMsg): Option<SyncSteps.GuiEdit> {
    match msg
    case RequestSnapshot => None
    case SetPollInterval(ms) => Some(SyncSteps.SetPollInterval(Max(MIN_POLL_INTERVAL_MS, Min(ms, MAX_POLL_INTERVAL_MS))))
    case SetTier(pid, tier) =>
      if pid in d.table then Some(SyncSteps.EditRule(d.table[pid].name, Edit.SetTier(tier))) else None
    case SetCap(name, pct) => Some(SyncSteps.EditRule(name, Edit.SetCap(pct)))
    case ConfirmGame(name, answer) =>
      if answer.NotNow? then None
      else Some(SyncSteps.EditRule(name, Edit.SetTier(if answer.Yes? then Game else Software)))
  }

  /** The config in effect after a run: the one at its start, each load replacing it and each edit changing it. */
  function InEffect(env: Env, d: Daemon, es: seq<Event>): AppConfig
    decreases es
  {
    if es == [] then d.sync.active
    else
      var front, e := es[..|es| - 1], es[|es| - 1];
      var cfg, q := InEffect(env, d, front), Run(env, d, front);
      match e
      case Files(paths, _) => OrElse(LoadedByPoll(q.sync), LoadedByPaths(q.sync, paths)).GetOr(cfg)
      case Message(msg) => if EditOf(q, msg).Some? then SyncSteps.Edited(cfg, EditOf(q, msg).value) else cfg
      case Outside(_) | Poll(_, _, _) => cfg
  }

  lemma MessageEdits(d: Daemon, msg: ClientMsg)
    ensures Handle(d, msg).sync.active ==
            if EditOf(d, msg).Some? then SyncSteps.Edited(d.sync.active, EditOf(d, msg).value) else d.sync.active
  {
  }

  /** At every moment of every run the active config is the one loads and edits add up to, with its index; without client
      messages, the one loaded last. */
  lemma {:induction false} LoadsAndEditsCount(env: Env, d: Daemon, es: seq<Event>)
    requires d.rules == Build(d.sync.active)
    ensures var q := Run(env, d, es); q.sync.active == InEffect(env, d, es) && q.rules == Build(q.sync.active)
    ensures (forall e | e in es :: !e.Message?) ==> InEffect(env, d, es) == Loaded(env, d, es).GetOr(d.sync.active)
    decreases es
  {
    if es != [] {
      var front, e := es[..|es| - 1], es[|es| - 1];
      assert es == front + [e];
      LoadsAndEditsCount(env, d, front);
      var q := Run(env, d, front);
      match e {
        case Files(paths, now) =>
          FilesLoad(q, paths, now);
          ReloadKeepsCoherence(q, paths, now);
        case Message(msg) =>
          MessageEdits(q, msg);
          HandleKeepsCoherence(q, msg);
        case Outside(_) =>
        case Poll(_, _, _) =>
      }
    }
  }

  // ----- the edits of one rule in a run -----

  /** The edits that the messages of a run make of the rule under `k`. */
  function EditsOf(env: Env, d: Daemon, es: seq<Event>, k: string): seq<Edit>
    decreases es
  {
    if es == [] then []
    else
      var front, e := es[..|es| - 1], es[|es| - 1];
      var edit := if e.Message? then EditOf(Run(env, d, front), e.msg) else None;
      EditsOf(env, d, front, k) + if edit.Some? && edit.value.EditRule? && edit.value.name == k then [edit.value.edit] else []
  }

  ghost predicate SameRule(a: AppConfig, b: AppConfig, k: string) {
    (k in a.rules <==> k in b.rules) && (k in a.rules ==> a.rules[k] == b.rules[k])
  }

  lemma EditsItsRule(a: AppConfig, b: AppConfig, k: string, edit: Edit)
    requires SameRule(a, b, k)
    ensures SameRule(Do(a, k, edit), Do(b, k, edit), k)
  {
  }

  /** As long as no file is loaded, each rule is what the edits of it have made of it. */
  lemma {:induction false} RuleFollowsEdits(env: Env, d: Daemon, es: seq<Event>, k: string)
    requires Loaded(env, d, es).None?
    ensures SameRule(InEffect(env, d, es), DoAll(d.sync.active, k, EditsOf(env, d, es, k)), k)
    decreases es
  {
    if es != [] {
      var front, e := es[..|es| - 1], es[|es| - 1];
      RuleFollowsEdits(env, d, front, k);
      var cfg, edits := InEffect(env, d, front), EditsOf(env, d, front, k);
      var edit := if e.Message? then EditOf(Run(env, d, front), e.msg) else None;
      if edit.Some? && edit.value.EditRule? && edit.value.name == k {
        assert (edits + [edit.value.edit])[..|edits|] == edits;
        EditsItsRule(cfg, DoAll(d.sync.active, k, edits), k, edit.value.edit);
      } else {
        assert EditsOf(env, d, es, k) == edits;
      }
    }
  }

  /** Without loads rules keep their names. */
  lemma {:induction false} NamesStayFilled(env: Env, d: Daemon, es: seq<Event>)
    requires Loaded(env, d, es).None? && NamesFilled(d.sync.active)
    ensures NamesFilled(InEffect(env, d, es))
    decreases es
  {
    if es != [] {
      NamesStayFilled(env, d, es[..|es| - 1]);
    }
  }

  /** What cap edits make of a cgroup block; tier edits keep it. */
  function AfterCaps(cgroup: Option<CgroupLimits>, es: seq<Edit>): Option<CgroupLimits>
    decreases es
  {
    if es == [] then cgroup
    else
      var front := AfterCaps(cgroup, es[..|es| - 1]);
      if es[|es| - 1].SetCap? then WithCap(front, es[|es| - 1].pct) else front
  }

  lemma {:induction false} EditedRule(cfg: AppConfig, name: string, tier: Tier, es: seq<Edit>)
    requires name in cfg.rules && Scheduling(cfg.rules[name]) == FromPreset(name, tier)
    ensures var cfg' := DoAll(cfg, name, es);
      && name in cfg'.rules
      && cfg'.rules[name] == FromPreset(name, LastTier(es).GetOr(tier)).(cgroup := AfterCaps(cfg.rules[name].cgroup, es))
    decreases es
  {
    if es != [] {
      EditedRule(cfg, name, tier, es[..|es| - 1]);
    }
  }

  /** The match name of an edited rule: a tier edit makes it the key. */
  lemma {:induction false} EditedMatch(cfg: AppConfig, k: string, es: seq<Edit>)
    ensures var cfg' := DoAll(cfg, k, es);
      && (k in cfg'.rules <==> k in cfg.rules || es != [])
      && (k in cfg'.rules ==>
            cfg'.rules[k].matchName == if k in cfg.rules && LastTier(es).None? then cfg.rules[k].matchName else k)
    decreases es
  {
    if es != [] {
      EditedMatch(cfg, k, es[..|es| - 1]);
    }
  }

  /** The rule a config has for the name asks for exactly this, at every age. */
  predicate Decides(cfg: AppConfig, name: string, want: ApplyTarget) {
    match Scan(SortedKeys(cfg.rules.Keys), cfg.rules, name)
    case Some(r) => RuleTarget(r) == want && r.delay.GetOr(0) == 0
    case None => false
  }

  /** Every touchable process of the name gets exactly this. */
  ghost predicate AllGet(env: Env, d: Daemon, name: string, want: ApplyTarget) {
    forall p: Entry | p.name == name && !Untouchable(env, p) :: Decide(env, d, p) == Apply(want)
  }

  lemma AllGetIff(env: Env, d: Daemon, name: string, want: ApplyTarget)
    requires d.rules == Build(d.sync.active) && !IsDeCritical(name) && want.rule.Some?
    ensures AllGet(env, d, name, want) <==> Decides(d.sync.active, name, want)
  {
    BuildMeaning(d.sync.active);
    if AllGet(env, d, name, want) {
      var young := Entry(0, name, env.ourUid, 0, 0, false, false, false, false, false, Shown(0, "", 0.0, 0, "", None, 0));
      assert Decide(env, d, young) == Apply(want);
      assert Lookup(d.rules, name).Some?;
    } else {
      var p: Entry :| p.name == name && !Untouchable(env, p) && Decide(env, d, p) != Apply(want);
    }
  }

  /** The rule under a process's own name decides exactly if it asks for this at once and no later key matches. */
  lemma OwnRuleDecidesIff(cfg: AppConfig, name: string, want: ApplyTarget)
    requires NamesFilled(cfg) && name in cfg.rules && cfg.rules[name].matchName == name && cfg.rules[name].delay.None?
    requires want.rule == Some(name)
    ensures Decides(cfg, name, want) <==>
            RuleTarget(cfg.rules[name]) == want && forall k | k in cfg.rules && cfg.rules[k].matchName == name :: !Before(name, k)
  {
    if k :| k in cfg.rules && cfg.rules[k].matchName == name && Before(name, k) {
      BeforeTotal(name, k);
      LaterKeyOverrules(SortedKeys(cfg.rules.Keys), cfg.rules, name, name, k);
      ScanFinds(SortedKeys(cfg.rules.Keys), cfg.rules, name);
    } else {
      forall j | j in cfg.rules && cfg.rules[j].matchName == name
        ensures j == name || Before(j, name)
      {
        BeforeTotal(j, name);
      }
      ScanKeepsGreatest(SortedKeys(cfg.rules.Keys), cfg.rules, name, name);
    }
  }

  /** The rules under later keys that still match after the edits of a run. */
  lemma LaterMatchesIff(env: Env, d: Daemon, es: seq<Event>, name: string, k: string)
    requires Loaded(env, d, es).None? && k != name
    ensures var c, cfg := InEffect(env, d, es), d.sync.active;
      (k in c.rules && c.rules[k].matchName == name) <==>
      (k in cfg.rules && cfg.rules[k].matchName == name && LastTier(EditsOf(env, d, es, k)).None?)
  {
    RuleFollowsEdits(env, d, es, k);
    EditedMatch(d.sync.active, k, EditsOf(env, d, es, k));
  }

  lemma EditSurvivesIff(env: Env, d: Daemon, es: seq<Event>, name: string, tier: Tier, want: ApplyTarget)
    requires Loaded(env, d, es).None? && NamesFilled(d.sync.active)
    requires name in d.sync.active.rules && Scheduling(d.sync.active.rules[name]) == FromPreset(name, tier)
    requires want == RuleTarget(d.sync.active.rules[name])
    ensures var edits := EditsOf(env, d, es, name); var cfg := d.sync.active;
      Decides(InEffect(env, d, es), name, want) <==>
      && LastTier(edits).GetOr(tier) == tier && AfterCaps(want.cgroup, edits) == want.cgroup
      && forall k | k in cfg.rules && cfg.rules[k].matchName == name && Before(name, k) ::
           LastTier(EditsOf(env, d, es, k)).Some?
  {
    var c, cfg, edits := InEffect(env, d, es), d.sync.active, EditsOf(env, d, es, name);
    RuleFollowsEdits(env, d, es, name);
    EditedRule(cfg, name, tier, edits);
    NamesStayFilled(env, d, es);
    OwnRuleDecidesIff(c, name, want);
    BeforeTotal(name, name);
    forall k | k != name
      ensures (k in c.rules && c.rules[k].matchName == name) <==>
              (k in cfg.rules && cfg.rules[k].matchName == name && LastTier(EditsOf(env, d, es, k)).None?)
    {
      LaterMatchesIff(env, d, es, name, k);
    }
  }

  lemma TierEditPins(d: Daemon, pid: Pid, tier: Tier)
    requires pid in d.table && NamesFilled(d.sync.active)
    ensures var d' := Handle(d, ClientMsg.SetTier(pid, tier)); var cfg, name := d.sync.active, d.table[pid].name;
      var cfg' := d'.sync.active;
      && cfg' == UpsertPreset(cfg, name, tier) && d'.rules == Build(cfg') && NamesFilled(cfg')
      && Scheduling(cfg'.rules[name]) == FromPreset(name, tier) && RuleTarget(cfg'.rules[name]) == TierTarget(cfg, name, tier)
  {
  }

  /** A tier chosen in the GUI, and whatever happens up to the poll, loads of config files and further client messages
      among it: it decides what that poll applies to every touchable process of the name, whatever it looks like and
      however young it is, exactly in these cases.  If no file has been loaded since: the last tier set for the name is
      this one, the caps set since leave its cgroup block as it was, and every rule under a later key that matched the
      name has itself been given a tier (which makes it match its own key).  If one has: the loaded config with the edits
      made after it happens to ask for the same; the edit itself is gone, from what the pending write will render too. */
  lemma {:induction false} TierEditReachesPollIff(
    env: Env, x: SyncSteps.State, boot: nat, es: seq<Event>, pid: Pid, tier: Tier, since: seq<Event>)
    requires var d := Run(env, Booted(x, boot), es);
      pid in d.table && !IsDeCritical(d.table[pid].name) && NamesFilled(d.sync.active)
    ensures var d := Run(env, Booted(x, boot), es); var d' := Handle(d, ClientMsg.SetTier(pid, tier));
      var q, cfg, name := Run(env, d', since), d.sync.active, d.table[pid].name;
      var want, edits := TierTarget(cfg, name, tier), EditsOf(env, d', since, name);
      && q.sync.active == InEffect(env, d', since)
      && (AllGet(env, q, name, want) <==>
            if Loaded(env, d', since).Some? then Decides(InEffect(env, d', since), name, want)
            else
              && LastTier(edits).GetOr(tier) == tier && AfterCaps(want.cgroup, edits) == want.cgroup
              && forall k | k in cfg.rules && cfg.rules[k].matchName == name && Before(name, k) ::
                   LastTier(EditsOf(env, d', since, k)).Some?)
  {
    var d := Run(env, Booted(x, boot), es);
    var d' := Handle(d, ClientMsg.SetTier(pid, tier));
    var cfg, name := d.sync.active, d.table[pid].name;
    TierEditPins(d, pid, tier);
    LoadsAndEditsCount(env, d', since);
    AllGetIff(env, Run(env, d', since), name, TierTarget(cfg, name, tier));
    BeforeTotal(name, name);
    if Loaded(env, d', since).None? {
      EditSurvivesIff(env, d', since, name, tier, TierTarget(cfg, name, tier));
    }
  }

  /** An input on which the edit is lost: before the poll, a root file that the daemon did not write itself, and that
      has no rule for the name, is noticed. */
  lemma ReloadLosesTierEdit(env: Env, d: Daemon, pid: Pid, tier: Tier, now: nat, p: Entry)
    requires d.rules == Build(d.sync.active) && pid in d.table && !IsDeCritical(p.name) && p.name == d.table[pid].name
    requires LoadedBy(d.sync, SyncSteps.RootFile) == Some(DefaultConfig)
    requires !Moved(d.sync, SyncSteps.RootFile) && !Moved(d.sync, SyncSteps.LocalFile)
    requires p.name !in d.instance && !p.inCatalog && !p.driFd && p.pid !in d.flags
    ensures var q := Next(env, Handle(d, ClientMsg.SetTier(pid, tier)), Files([SyncSteps.RootFile], now));
      !HasRule(q.rules, p.name) && Decide(env, q, p) == Nothing
  {
    var d' := Handle(d, ClientMsg.SetTier(pid, tier));
    FilesLoad(d', [SyncSteps.RootFile], now);
    assert [SyncSteps.RootFile][..0] == [];
    ReloadKeepsCoherence(d', [SyncSteps.RootFile], now);
    var q := Next(env, d', Files([SyncSteps.RootFile], now));
    assert q.sync.active == DefaultConfig;
    BuildMeaning(DefaultConfig);
    ScanFinds(SortedKeys(DefaultConfig.rules.Keys), DefaultConfig.rules, p.name);
    assert q.instance == d.instance && q.flags == d.flags;
  }
}
