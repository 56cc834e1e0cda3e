/** Every run of the config machinery: edits of either file by others, file-change notifications, polls, ticks,
    GUI edits, changing permissions and a clock that goes on inside a loop iteration.  `now` is the instant the
    current loop iteration started at; only the daemon's own stamps of a write use the clock itself. */
module SyncRuns {
  import opened Wrappers
  import opened Config
  import opened SyncSteps

  datatype Machine = Machine(x: State, now: nat, booted: bool)

  datatype Event =
    // others
    | ExternalWrite(f: Which, text: Text)
    | ExternalRemove(f: Which)
    | Advance(clock: nat, nextMtime: nat)
    | SetPermissions(denyLocal: bool, denyRoot: bool)
    // the daemon
    | Boot
    | LoopStart
    | Notify(f: Which)
    | Poll
    | TickNow
    | Gui(edit: GuiEdit)

  predicate Enabled(m: Machine, e: Event) {
    match e
    case Advance(clock, next) => m.x.disk.clock <= clock && m.x.disk.nextMtime <= next
    case Boot => !m.booted
    case Notify(_) | Poll | TickNow | Gui(_) => m.booted
    case _ => true
  }

  function PutFile(d: Disk, f: Which, file: Option<File>): Disk {
    match f
    case LocalFile => d.(local := file)
    case RootFile => d.(root := file)
  }

  function Next(m: Machine, e: Event): Machine
    requires Enabled(m, e)
  {
    var x, d := m.x, m.x.disk;
    match e
    case ExternalWrite(f, t) => m.(x := x.(disk := PutFile(d, f, Some(File(t, d.nextMtime))).(nextMtime := d.nextMtime + 1)))
    case ExternalRemove(f) => m.(x := x.(disk := PutFile(d, f, None)))
    case Advance(clock, next) => m.(x := x.(disk := d.(clock := clock, nextMtime := next)))
    case SetPermissions(l, r) => m.(x := x.(disk := d.(denyLocal := l, denyRoot := r)))
    case Boot => m.(x := InitialLoad(x, m.now), booted := true)
    case LoopStart => m.(now := d.clock)
    case Notify(f) => m.(x := OnPathChanged(x, f, m.now).0)
    case Poll => m.(x := PollMtimes(x, m.now).0)
    case TickNow => m.(x := Tick(x, m.now).0)
    case Gui(edit) => m.(x := Upsert(x, edit))
  }

  ghost predicate CanRun(m: Machine, es: seq<Event>)
    decreases es, 0
  {
    es == [] || (CanRun(m, es[..|es| - 1]) && Enabled(Run(m, es[..|es| - 1]), es[|es| - 1]))
  }

  ghost function Run(m: Machine, es: seq<Event>): Machine
    requires CanRun(m, es)
    decreases es, 1
  {
    if es == [] then m else Next(Run(m, es[..|es| - 1]), es[|es| - 1])
  }

  lemma {:induction false} PrefixRuns(m: Machine, es: seq<Event>, i: nat)
    requires CanRun(m, es) && i <= |es|
    ensures CanRun(m, es[..i])
    decreases |es| - i
  {
    if i == |es| {
      assert es[..i] == es;
    } else {
      PrefixRuns(m, es, i + 1);
      assert es[..i + 1][..i] == es[..i];
    }
  }

  /** The machine after the first `i` events. */
  ghost function At(m: Machine, es: seq<Event>, i: nat): Machine
    requires CanRun(m, es) && i <= |es|
  {
    PrefixRuns(m, es, i);
    Run(m, es[..i])
  }

  lemma AtPrefix(m: Machine, es: seq<Event>, i: nat)
    requires CanRun(m, es) && i < |es|
    ensures CanRun(m, es[..|es| - 1]) && At(m, es, i) == At(m, es[..|es| - 1], i)
  {
    assert es[..|es| - 1][..i] == es[..i];
  }

  lemma AtEnd(m: Machine, es: seq<Event>)
    requires CanRun(m, es)
    ensures At(m, es, |es|) == Run(m, es)
    ensures es != [] ==> At(m, es, |es| - 1) == Run(m, es[..|es| - 1])
  {
    assert es[..|es|] == es;
  }

  // ----- bookkeeping that every run keeps -----

  ghost predicate Earlier(o: Option<nat>, bound: nat) { o.Some? ==> o.value < bound }

  ghost predicate Good(x: State, now: nat) {
    var d := x.disk;
    && now <= d.clock
    && (x.changedAt.Some? ==> x.changedAt.value <= d.clock)
    && (x.mtimeAtChange.Some? ==> x.changedAt.Some?)
    && (x.pendingWrite ==> x.writeAt.Some?)
    && x.promoteDebounce >= MIN_PROMOTE_DEBOUNCE
    && Earlier(Mtime(d, LocalFile), d.nextMtime) && Earlier(Mtime(d, RootFile), d.nextMtime)
    && Earlier(x.mtimeAtChange, d.nextMtime)
    && (forall f | f in x.selfWrites :: x.selfWrites[f] < d.nextMtime)
    && (LocalStillUnchanged(x) ==> Parse(d.local.value.text).Some?)
  }

  ghost predicate Inv(m: Machine) { Good(m.x, m.now) }

  /** A new `Sync` over any two files. */
  ghost predicate Initial(m: Machine) {
    var d := m.x.disk;
    && (exists p, w :: m.x == Fresh(p, w, d)) && !m.booted && m.now <= d.clock
    && Earlier(Mtime(d, LocalFile), d.nextMtime) && Earlier(Mtime(d, RootFile), d.nextMtime)
  }

  lemma LoadsGood(x: State, now: nat)
    requires Good(x, now)
    ensures Good(LoadRoot(x), now) && Good(LoadLocal(x, now), now)
  {
  }

  lemma PathChangedGood(x: State, f: Which, now: nat)
    requires Good(x, now)
    ensures Good(OnPathChanged(x, f, now).0, now)
  {
    LoadsGood(x, now);
  }

  lemma PollGood(x: State, now: nat)
    requires Good(x, now)
    ensures Good(PollMtimes(x, now).0, now)
  {
    var x1 := PollOne(x, LocalFile, now).0;
    PathChangedGood(x.(known := x.known[LocalFile := Mtime(x.disk, LocalFile)]), LocalFile, now);
    PathChangedGood(x1.(known := x1.known[RootFile := Mtime(x1.disk, RootFile)]), RootFile, now);
  }

  lemma TickGood(x: State, now: nat)
    requires Good(x, now)
    ensures Good(Tick(x, now).0, now)
  {
    var x1 := FlushWrite(x, now);
    assert Good(x1, now);
  }

  lemma EventKeepsInv(m: Machine, e: Event)
    requires Inv(m) && Enabled(m, e)
    ensures Inv(Next(m, e))
  {
    match e
    case Notify(f) => PathChangedGood(m.x, f, m.now);
    case Poll => PollGood(m.x, m.now);
    case TickNow => TickGood(m.x, m.now);
    case Boot => BootGood(m.x, m.now);
    case ExternalWrite(_, _) =>
    case _ =>
  }

  lemma SnapshotGood(x: State, now: nat)
    requires Good(x, now)
    ensures Good(SnapshotMtimes(x), now)
  {
  }

  lemma BootGood(x: State, now: nat)
    requires Good(x, now)
    ensures Good(InitialLoad(x, now), now)
  {
    LoadsGood(x, now);
    assert Good(LoadLocal(x, now).(pendingPromote := true), now);
    assert Good(x.(active := DefaultConfig, source := Missing), now);
    SnapshotGood(x, now);
    SnapshotGood(x.(active := DefaultConfig, source := Missing), now);
    SnapshotGood(LoadRoot(x), now);
    SnapshotGood(LoadLocal(x, now).(pendingPromote := true), now);
  }

  lemma {:induction false} RunKeepsInv(m: Machine, es: seq<Event>)
    requires Inv(m) && CanRun(m, es)
    ensures Inv(Run(m, es))
    decreases es
  {
    if es != [] {
      RunKeepsInv(m, es[..|es| - 1]);
      EventKeepsInv(Run(m, es[..|es| - 1]), es[|es| - 1]);
    }
  }

  // ----- settled promotion -----

  /** This event takes note of the local file: it loads it, or writes it. */
  predicate Registers(m: Machine, e: Event) {
    var x := m.x;
    match e
    case Boot =>
      && Load(x.disk, LocalFile).Some?
      && (Mtime(x.disk, RootFile).None? || Mtime(x.disk, LocalFile).value > Mtime(x.disk, RootFile).value)
    case Notify(LocalFile) => !IsSelfWrite(x, LocalFile) && Load(x.disk, LocalFile).Some?
    case Poll =>
      && !(LocalFile in x.known && x.known[LocalFile] == Mtime(x.disk, LocalFile))
      && !IsSelfWrite(x, LocalFile) && Load(x.disk, LocalFile).Some?
    case TickNow => WriteDue(x, m.now) && !x.disk.denyLocal
    case _ => false
  }

  /** After event `j` the daemon has just noted the version that is still there at the end, unchanged since. */
  ghost predicate NotedSince(m: Machine, es: seq<Event>, j: nat)
    requires CanRun(m, es) && j < |es|
  {
    && Registers(At(m, es, j), es[j])
    && At(m, es, j + 1).x.changedAt == Run(m, es).x.changedAt
    && At(m, es, j + 1).x.mtimeAtChange == Run(m, es).x.mtimeAtChange
    && (At(m, es, j + 1).x.changedAt == Some(At(m, es, j).now) || At(m, es, j + 1).x.changedAt == Some(At(m, es, j).x.disk.clock))
    && forall i | j < i <= |es| :: At(m, es, i).x.disk.local == Run(m, es).x.disk.local
  }

  /** The stamps and the local file are as before, up to the point that the stamps may have come to mismatch it. */
  ghost predicate StampsKept(x: State, x': State) {
    && x'.changedAt == x.changedAt && x'.mtimeAtChange == x.mtimeAtChange
    && (LocalStillUnchanged(x') ==> x'.disk.local == x.disk.local)
  }

  ghost predicate Stamped(x': State, m: Machine) {
    x'.changedAt == Some(m.now) || x'.changedAt == Some(m.x.disk.clock)
  }

  lemma PollStamps(m: Machine)
    requires Inv(m)
    ensures var x' := PollMtimes(m.x, m.now).0;
      if Registers(m, Poll) then Stamped(x', m) else StampsKept(m.x, x')
  {
    var x1 := PollOne(m.x, LocalFile, m.now).0;
    assert if Registers(m, Poll) then x1.changedAt == Some(m.now) else StampsKept(m.x, x1);
    assert PollOne(x1, RootFile, m.now).0.changedAt == x1.changedAt;
  }

  lemma TickStamps(m: Machine)
    requires Inv(m)
    ensures var x' := Tick(m.x, m.now).0;
      if Registers(m, TickNow) then Stamped(x', m) else StampsKept(m.x, x')
  {
    var x1 := FlushWrite(m.x, m.now);
    assert if Registers(m, TickNow) then x1.changedAt == Some(m.x.disk.clock) else StampsKept(m.x, x1);
  }

  /** An event that notes nothing leaves the stamps alone, and the local file too if the stamps still match it. */
  lemma OnlyRegistrationsStamp(m: Machine, e: Event)
    requires Inv(m) && Enabled(m, e)
    ensures if Registers(m, e) then Stamped(Next(m, e).x, m) else StampsKept(m.x, Next(m, e).x)
  {
    match e
    case Poll => PollStamps(m);
    case TickNow => TickStamps(m);
    case Boot =>
    case Notify(_) =>
    case _ =>
  }

  lemma {:induction false} LastRegistration(m: Machine, es: seq<Event>) returns (j: nat)
    requires Initial(m) && CanRun(m, es) && LocalStillUnchanged(Run(m, es).x)
    ensures j < |es| && NotedSince(m, es, j)
    decreases es
  {
    assert es != [];
    var n := |es| - 1;
    var before := Run(m, es[..n]);
    assert Inv(m);
    RunKeepsInv(m, es[..n]);
    OnlyRegistrationsStamp(before, es[n]);
    AtEnd(m, es);
    if Registers(before, es[n]) {
      j := n;
    } else {
      j := LastRegistration(m, es[..n]);
      AtPrefix(m, es, j);
      if j + 1 < |es| {
        AtPrefix(m, es, j + 1);
      }
      forall i | j < i <= |es|
        ensures At(m, es, i).x.disk.local == Run(m, es).x.disk.local
      {
        if i < |es| {
          AtPrefix(m, es, i);
        }
      }
    }
  }

  predicate WritesRoot(m: Machine, e: Event) { e.TickNow? && Tick(m.x, m.now).1 }

  /** Settled promotion: whenever a tick writes the root file, it copies a local version that parses, that the daemon
      had noted by loading or writing it, at a stamp at least the debounce before the tick, and that has been the
      local file at every moment since.  What does not parse is never promoted. */
  lemma SettledPromotion(m: Machine, es: seq<Event>) returns (j: nat)
    requires Initial(m) && CanRun(m, es) && Run(m, es).booted && WritesRoot(Run(m, es), TickNow)
    ensures j < |es| && NotedSince(m, es, j)
    ensures var r := Run(m, es); var file := r.x.disk.local;
      && file.Some? && Parse(file.value.text).Some?
      && Since(r.now, r.x.changedAt.value) >= r.x.promoteDebounce >= MIN_PROMOTE_DEBOUNCE
      && Next(r, TickNow).x.disk.root == Some(File(file.value.text, r.x.disk.nextMtime))
  {
    assert Inv(m);
    RunKeepsInv(m, es);
    j := LastRegistration(m, es);
  }

  /** Nothing but such a tick, or somebody else, ever writes the root file. */
  lemma OnlyTicksWriteRoot(m: Machine, e: Event)
    requires Enabled(m, e) && Next(m, e).x.disk.root != m.x.disk.root
    ensures WritesRoot(m, e) || (e.ExternalWrite? && e.f == RootFile) || (e.ExternalRemove? && e.f == RootFile)
  {
    match e
    case Boot => BootKeepsDisk(m.x, m.now);
    case Notify(f) => PathKeepsDisk(m.x, f, m.now);
    case Poll => PollKeepsDisk(m.x, m.now);
    case TickNow => TickRoot(m.x, m.now);
    case _ =>
  }

  lemma BootKeepsDisk(x: State, now: nat)
    ensures InitialLoad(x, now).disk == x.disk
  {
  }

  lemma PathKeepsDisk(x: State, f: Which, now: nat)
    ensures OnPathChanged(x, f, now).0.disk == x.disk
  {
  }

  lemma PollKeepsDisk(x: State, now: nat)
    ensures PollMtimes(x, now).0.disk == x.disk
  {
  }

  lemma TickRoot(x: State, now: nat)
    ensures Tick(x, now).0.disk.root == x.disk.root || Tick(x, now).1
  {
  }

  // ----- which file wins -----

  function Other(f: Which): Which { if f == LocalFile then RootFile else LocalFile }

  function Newer(d: Disk): Which
    requires d.local.Some? && d.root.Some?
  {
    if d.local.value.mtime > d.root.value.mtime then LocalFile else RootFile
  }

  /** The one file looked at: the only one there, or the newer of the two. */
  function Chosen(d: Disk): Option<Which> {
    match (d.local, d.root)
    case (None, None) => None
    case (Some(_), None) => Some(LocalFile)
    case (None, Some(_)) => Some(RootFile)
    case (Some(_), Some(_)) => Some(Newer(d))
  }

  /** At start only the newer file counts (root on a tie): a config from a file is in effect exactly if that file
      parses.  If it does not, the daemon starts on the defaults although the older file may parse, and if the
      unparseable one is the local file a promotion is pending all the same, which comes to nothing. */
  lemma NewerWinsAtBootIff(p: nat, w: nat, d: Disk, now: nat)
    ensures var x := InitialLoad(Fresh(p, w, d), now); var f := Chosen(d);
      && (x.source != Missing <==> f.Some? && Load(d, f.value).Some?)
      && x.active == (if f.Some? then Load(d, f.value).GetOr(DefaultConfig) else DefaultConfig)
      && (x.source != Missing ==> x.source == if f == Some(LocalFile) then Local else Root)
      && (x.pendingPromote <==> f == Some(LocalFile))
      && (LocalStillUnchanged(x) <==> f == Some(LocalFile) && Load(d, LocalFile).Some?)
  {
  }

  /** Afterwards mtimes are not compared: of two edited files the one noticed last is in effect, and local is on its way
      over root exactly if that is local.  So the newer file wins exactly if it is noticed last; a late notice of an
      older local file will overwrite a newer root file. */
  lemma NewerWinsIff(x: State, last: Which, now: nat)
    requires x.disk.local.Some? && x.disk.root.Some? && !IsSelfWrite(x, LocalFile) && !IsSelfWrite(x, RootFile)
    requires Load(x.disk, LocalFile).Some? && Load(x.disk, RootFile).Some? && Load(x.disk, LocalFile) != Load(x.disk, RootFile)
    ensures var x' := OnPathChanged(OnPathChanged(x, Other(last), now).0, last, now).0;
      && (Some(x'.active) == Load(x.disk, Newer(x.disk)) <==> last == Newer(x.disk))
      && (x'.pendingPromote <==> last == LocalFile)
      && (last == LocalFile && !x.disk.denyRoot && !WriteDue(x', now + x.promoteDebounce) ==>
            Tick(x', now + x.promoteDebounce).0.disk.root.value.text == x.disk.local.value.text)
  {
    if last == LocalFile {
      var x1 := OnPathChanged(x, RootFile, now).0;
      assert x1.disk == x.disk && !IsSelfWrite(x1, LocalFile);
    } else {
      var x1 := OnPathChanged(x, LocalFile, now).0;
      assert x1.disk == x.disk && !IsSelfWrite(x1, RootFile);
    }
  }
}
