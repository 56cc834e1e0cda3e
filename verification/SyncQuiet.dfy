/** What the config machinery does when left alone: no more edits by anybody, and every earlier change of the files
    already seen.  It comes to rest, and the GUI's edits come to both files. */
module SyncQuiet {
  import opened Wrappers
  import opened Config
  import opened SyncSteps
  import opened SyncRuns

  /** Each file is as last seen, or as the daemon wrote it. */
  predicate Seen(x: State, f: Which) {
    IsSelfWrite(x, f) || (f in x.known && x.known[f] == Mtime(x.disk, f))
  }

  predicate Delivered(x: State) { Seen(x, LocalFile) && Seen(x, RootFile) }

  /** Time passes, the loop goes round; the only notifications are those of the daemon's own writes. */
  predicate QuietEvent(m: Machine, e: Event) {
    match e
    case Advance(_, _) | LoopStart | Poll | TickNow => Enabled(m, e)
    case Notify(f) => Enabled(m, e) && IsSelfWrite(m.x, f)
    case _ => false
  }

  ghost predicate QuietRun(m: Machine, es: seq<Event>)
    decreases es
  {
    es == [] || (QuietRun(m, es[..|es| - 1]) && QuietEvent(After(m, es[..|es| - 1]), es[|es| - 1]))
  }

  /** The end of a quiet run, total so that quiet runs can be defined with it. */
  ghost function After(m: Machine, es: seq<Event>): Machine
    decreases es
  {
    if es == [] then m
    else
      var q := After(m, es[..|es| - 1]);
      var e := es[|es| - 1];
      if Enabled(q, e) then Next(q, e) else q
  }

  function WritesLocalNow(m: Machine, e: Event): nat {
    if e.TickNow? && WriteDue(m.x, m.now) && !m.x.disk.denyLocal then 1 else 0
  }

  function WritesRootNow(m: Machine, e: Event): nat {
    if WritesRoot(m, e) then 1 else 0
  }

  ghost function LocalWrites(m: Machine, es: seq<Event>): nat
    decreases es
  {
    if es == [] then 0 else LocalWrites(m, es[..|es| - 1]) + WritesLocalNow(After(m, es[..|es| - 1]), es[|es| - 1])
  }

  ghost function RootWrites(m: Machine, es: seq<Event>): nat
    decreases es
  {
    if es == [] then 0 else RootWrites(m, es[..|es| - 1]) + WritesRootNow(After(m, es[..|es| - 1]), es[|es| - 1])
  }

  function B(b: bool): nat { if b then 1 else 0 }

  /** The decreasing measure: a write of the local file turns a pending write into a pending promotion. */
  function Pending(x: State): nat { 2 * B(x.pendingWrite) + B(x.pendingPromote) }

  // ----- polls and notifications see nothing new -----

  lemma QuietPoll(x: State, now: nat)
    requires Delivered(x)
    ensures var x' := PollMtimes(x, now).0; x' == x.(known := x'.known) && Delivered(x') && !PollMtimes(x, now).1
  {
  }

  lemma QuietTick(x: State, now: nat)
    requires Delivered(x)
    ensures Delivered(Tick(x, now).0) && Tick(x, now).0.active == x.active
  {
    var x1 := FlushWrite(x, now);
    assert Delivered(x1);
  }

  lemma QuietStep(m: Machine, e: Event)
    requires Delivered(m.x) && QuietEvent(m, e)
    ensures var m' := Next(m, e);
      && Delivered(m'.x) && m'.x.active == m.x.active && m'.booted == m.booted
      && m'.x.disk.denyLocal == m.x.disk.denyLocal && m'.x.disk.denyRoot == m.x.disk.denyRoot
      && (!e.TickNow? ==> m'.x == m.x.(known := m'.x.known, disk := m.x.disk.(clock := m'.x.disk.clock, nextMtime := m'.x.disk.nextMtime)))
  {
    match e
    case Poll => QuietPoll(m.x, m.now); PollKeepsDisk(m.x, m.now);
    case TickNow => QuietTick(m.x, m.now);
    case _ =>
  }

  /** The effect of a tick on the measure. */
  lemma TickPays(m: Machine)
    requires Inv(m)
    ensures Pending(Tick(m.x, m.now).0) + WritesLocalNow(m, TickNow) + WritesRootNow(m, TickNow) <= Pending(m.x)
    ensures B(Tick(m.x, m.now).0.pendingWrite) + WritesLocalNow(m, TickNow) <= B(m.x.pendingWrite)
  {
    var x1 := FlushWrite(m.x, m.now);
    assert WriteDue(m.x, m.now) && !m.x.disk.denyLocal ==> !PromoteDue(x1, m.now);
  }

  /** No feedback loop: left alone, the daemon never reloads a config on account of its own writes, writes the local
      file at most once if a write is pending and never otherwise, and writes at most as many files as the pending
      flags allow; each write lowers the measure, so at zero everything but the clock and the seen mtimes is fixed. */
  lemma {:induction false} ComesToRest(m: Machine, es: seq<Event>)
    requires Inv(m) && Delivered(m.x) && QuietRun(m, es)
    ensures var r := After(m, es);
      && Inv(r) && Delivered(r.x) && r.x.active == m.x.active && r.booted == m.booted
      && r.x.disk.denyLocal == m.x.disk.denyLocal && r.x.disk.denyRoot == m.x.disk.denyRoot
      && LocalWrites(m, es) + B(r.x.pendingWrite) <= B(m.x.pendingWrite)
      && LocalWrites(m, es) + RootWrites(m, es) + Pending(r.x) <= Pending(m.x)
    decreases es
  {
    if es != [] {
      var front := es[..|es| - 1];
      ComesToRest(m, front);
      var q := After(m, front);
      var e := es[|es| - 1];
      QuietStep(q, e);
      EventKeepsInv(q, e);
      if e.TickNow? {
        TickPays(q);
      }
    }
  }

  lemma {:induction false} AtRestNothingMoves(m: Machine, es: seq<Event>)
    requires Inv(m) && Delivered(m.x) && QuietRun(m, es) && Pending(m.x) == 0
    ensures var r := After(m, es); var d := r.x.disk;
      r.x == m.x.(known := r.x.known, disk := m.x.disk.(clock := d.clock, nextMtime := d.nextMtime))
    decreases es
  {
    if es != [] {
      var front := es[..|es| - 1];
      AtRestNothingMoves(m, front);
      ComesToRest(m, front);
      QuietStep(After(m, front), es[|es| - 1]);
    }
  }

  // ----- joining quiet runs -----

  lemma {:induction false} Join(m: Machine, xs: seq<Event>, ys: seq<Event>)
    ensures After(m, xs + ys) == After(After(m, xs), ys)
    ensures QuietRun(m, xs + ys) <==> QuietRun(m, xs) && QuietRun(After(m, xs), ys)
    ensures LocalWrites(m, xs + ys) == LocalWrites(m, xs) + LocalWrites(After(m, xs), ys)
    ensures RootWrites(m, xs + ys) == RootWrites(m, xs) + RootWrites(After(m, xs), ys)
    decreases ys
  {
    if ys == [] {
      assert xs + ys == xs;
    } else {
      var front := ys[..|ys| - 1];
      Join(m, xs, front);
      assert (xs + ys)[..|xs + ys| - 1] == xs + front;
    }
  }

  lemma One(m: Machine, e: Event)
    requires QuietEvent(m, e)
    ensures QuietRun(m, [e]) && After(m, [e]) == Next(m, e)
    ensures LocalWrites(m, [e]) == WritesLocalNow(m, e) && RootWrites(m, [e]) == WritesRootNow(m, e)
  {
    assert [e][..0] == [];
  }

  // ----- how many promotions -----

  /** Some tick, now or later, comes after instant `lo` and before instant `hi`. */
  predicate TickBetween(m: Machine, lo: nat, hi: nat) {
    (lo <= m.now < hi) || Max(m.x.disk.clock, lo) < hi
  }

  /** A promotion is pending that will be due while a local write is still being held back. */
  predicate Overtakes(m: Machine) {
    var x := m.x;
    && x.pendingWrite && x.pendingPromote && x.writeAt.Some? && x.changedAt.Some? && LocalStillUnchanged(x)
    && !x.disk.denyLocal && !x.disk.denyRoot
    && TickBetween(m, x.changedAt.value + x.promoteDebounce, x.writeAt.value)
  }

  function MostRootWrites(m: Machine): nat {
    if Overtakes(m) then 2
    else if (m.x.pendingWrite && !m.x.disk.denyLocal) || m.x.pendingPromote then 1
    else 0
  }

  lemma TickSpends(m: Machine)
    requires Inv(m) && m.booted
    ensures WritesRootNow(m, TickNow) + MostRootWrites(Next(m, TickNow)) <= MostRootWrites(m)
  {
  }

  lemma {:induction false} RootWritesBounded(m: Machine, es: seq<Event>)
    requires Inv(m) && Delivered(m.x) && QuietRun(m, es)
    ensures RootWrites(m, es) + MostRootWrites(After(m, es)) <= MostRootWrites(m)
    decreases es
  {
    if es != [] {
      var front := es[..|es| - 1];
      RootWritesBounded(m, front);
      ComesToRest(m, front);
      QuietStep(After(m, front), es[|es| - 1]);
      if es[|es| - 1].TickNow? {
        TickSpends(After(m, front));
      }
    }
  }

  /** Let the clock reach `t`, and tick in a new loop iteration. */
  function WaitAndTick(m: Machine, t: nat): seq<Event> {
    [Advance(Max(m.x.disk.clock, t), m.x.disk.nextMtime), LoopStart, TickNow]
  }

  function Later(m: Machine, t: nat): Machine {
    var c := Max(m.x.disk.clock, t);
    m.(x := m.x.(disk := m.x.disk.(clock := c)), now := c)
  }

  lemma Waited(m: Machine, t: nat)
    requires m.booted
    ensures var es := WaitAndTick(m, t); var q := Later(m, t);
      QuietRun(m, es) && After(m, es) == Next(q, TickNow) && RootWrites(m, es) == WritesRootNow(q, TickNow)
  {
    var c := Max(m.x.disk.clock, t);
    var a := Advance(c, m.x.disk.nextMtime);
    var m1 := Next(m, a);
    One(m, a);
    One(m1, LoopStart);
    One(Later(m, t), TickNow);
    Join(m, [a], [LoopStart]);
    Join(m, [a] + [LoopStart], [TickNow]);
    assert WaitAndTick(m, t) == [a] + [LoopStart] + [TickNow];
    assert Next(m1, LoopStart) == Later(m, t);
  }

  /** The overtaking tick itself: it promotes, and leaves the local write pending. */
  lemma OvertakingTick(m: Machine) returns (es: seq<Event>)
    requires Inv(m) && m.booted && Overtakes(m)
    ensures QuietRun(m, es) && RootWrites(m, es) == 1
    ensures var r := After(m, es);
      && r.booted && Inv(r) && r.x.pendingWrite && r.x.writeAt == m.x.writeAt
      && !r.x.disk.denyLocal && !r.x.disk.denyRoot
  {
    var due := m.x.changedAt.value + m.x.promoteDebounce;
    if due <= m.now < m.x.writeAt.value {
      es := [TickNow];
      One(m, TickNow);
      EventKeepsInv(m, TickNow);
    } else {
      es := WaitAndTick(m, due);
      Waited(m, due);
      assert Inv(Later(m, due));
      EventKeepsInv(Later(m, due), TickNow);
    }
  }

  /** From a pending, allowed local write, a promotion of it can always follow. */
  lemma WriteThenPromote(m: Machine) returns (es: seq<Event>)
    requires Inv(m) && m.booted && m.x.pendingWrite && !m.x.disk.denyLocal && !m.x.disk.denyRoot
    ensures QuietRun(m, es) && RootWrites(m, es) == 1
  {
    var t := m.x.writeAt.value;
    Waited(m, t);
    DueWrite(m);
    var m1 := Next(Later(m, t), TickNow);
    var t1 := m1.x.changedAt.value + m1.x.promoteDebounce;
    Waited(m1, t1);
    SettledPromotes(Later(m1, t1));
    Join(m, WaitAndTick(m, t), WaitAndTick(m1, t1));
    es := WaitAndTick(m, t) + WaitAndTick(m1, t1);
  }

  /** At its due time the write is made, and its promotion is pending. */
  lemma DueWrite(m: Machine)
    requires Inv(m) && m.booted && m.x.pendingWrite && !m.x.disk.denyLocal
    ensures var q := Later(m, m.x.writeAt.value); var r := Next(q, TickNow);
      && WritesRootNow(q, TickNow) == 0 && Inv(r) && r.booted && r.x.disk.denyRoot == m.x.disk.denyRoot
      && r.x.pendingPromote && !r.x.pendingWrite && r.x.changedAt.Some? && LocalStillUnchanged(r.x) && r.x.disk.local.Some?
  {
    var q := Later(m, m.x.writeAt.value);
    assert Inv(q);
    EventKeepsInv(q, TickNow);
  }

  lemma SettledPromotes(q: Machine)
    requires Inv(q) && q.booted && q.x.pendingPromote && !q.x.pendingWrite && q.x.changedAt.Some? && !q.x.disk.denyRoot
    requires LocalStillUnchanged(q.x) && q.x.disk.local.Some? && q.now >= q.x.changedAt.value + q.x.promoteDebounce
    ensures WritesRootNow(q, TickNow) == 1
  {
  }

  /** Left alone, the daemon promotes at most once, except precisely when a promotion already pending can come due
      before a local write that is still held back: then a quiet run with two promotions exists. */
  lemma AtMostOnePromotionIff(m: Machine)
    requires Inv(m) && m.booted && Delivered(m.x)
    ensures (forall es | QuietRun(m, es) :: RootWrites(m, es) <= 1) <==> !Overtakes(m)
  {
    if Overtakes(m) {
      var xs := OvertakingTick(m);
      var ys := WriteThenPromote(After(m, xs));
      Join(m, xs, ys);
      assert QuietRun(m, xs + ys) && RootWrites(m, xs + ys) == 2;
    } else {
      forall es | QuietRun(m, es)
        ensures RootWrites(m, es) <= 1
      {
        RootWritesBounded(m, es);
      }
    }
  }

  // ----- convergence of GUI edits -----

  /** The edits are in the local file; the root file has them or will. */
  ghost predicate Flushed(m: Machine, cfg: AppConfig) {
    var x := m.x;
    && !x.pendingWrite && x.active == cfg && x.disk.local.Some? && x.disk.local.value.text == Rendered(cfg)
    && LocalStillUnchanged(x) && x.changedAt.Some?
    && (x.pendingPromote || (x.disk.root.Some? && x.disk.root.value.text == Rendered(cfg)))
  }

  lemma {:induction false} StaysFlushed(m: Machine, es: seq<Event>, cfg: AppConfig)
    requires Inv(m) && Delivered(m.x) && QuietRun(m, es) && Flushed(m, cfg) && !m.x.disk.denyRoot
    ensures Flushed(After(m, es), cfg) && After(m, es).x.changedAt == m.x.changedAt && LocalWrites(m, es) == 0
    ensures After(m, es).x.promoteDebounce == m.x.promoteDebounce
    decreases es
  {
    if es != [] {
      var front := es[..|es| - 1];
      StaysFlushed(m, front, cfg);
      ComesToRest(m, front);
      QuietStep(After(m, front), es[|es| - 1]);
    }
  }

  /** Until the write is due nothing is written; the first due tick flushes. */
  lemma {:induction false} UntilFlushed(m: Machine, es: seq<Event>)
    requires Inv(m) && Delivered(m.x) && QuietRun(m, es) && m.x.pendingWrite && !m.x.disk.denyLocal && !m.x.disk.denyRoot
    ensures var r := After(m, es);
      && r.x.promoteDebounce == m.x.promoteDebounce
      && (if r.x.pendingWrite then r.x.writeAt == m.x.writeAt && LocalWrites(m, es) == 0
          else Flushed(r, m.x.active) && LocalWrites(m, es) == 1)
    decreases es
  {
    if es != [] {
      var front := es[..|es| - 1];
      UntilFlushed(m, front);
      ComesToRest(m, front);
      QuietStep(After(m, front), es[|es| - 1]);
    }
  }

  lemma FlushingTick(m: Machine)
    requires Inv(m) && m.booted && m.x.pendingWrite && m.now >= m.x.writeAt.value && !m.x.disk.denyLocal
    ensures Flushed(Next(m, TickNow), m.x.active) && Next(m, TickNow).x.changedAt == Some(m.x.disk.clock)
  {
  }

  /** By the end of a tick at or after the due time, exactly one local write has happened. */
  lemma FlushedBy(m: Machine, xs: seq<Event>)
    requires Inv(m) && m.booted && Delivered(m.x) && m.x.pendingWrite && !m.x.disk.denyLocal && !m.x.disk.denyRoot
    requires QuietRun(m, xs) && After(m, xs).now >= m.x.writeAt.value
    ensures var q := After(m, xs); var q1 := After(m, xs + [TickNow]);
      && QuietRun(m, xs + [TickNow]) && Inv(q1) && Delivered(q1.x) && !q1.x.disk.denyRoot && q1.booted
      && Flushed(q1, m.x.active) && LocalWrites(m, xs + [TickNow]) == 1
      && q1.x.changedAt.value <= q.x.disk.clock && q1.x.promoteDebounce == m.x.promoteDebounce
  {
    var q := After(m, xs);
    UntilFlushed(m, xs);
    ComesToRest(m, xs);
    One(q, TickNow);
    Join(m, xs, [TickNow]);
    EventKeepsInv(q, TickNow);
    QuietStep(q, TickNow);
    if q.x.pendingWrite {
      FlushingTick(q);
    } else {
      StaysFlushed(q, [TickNow], m.x.active);
    }
  }

  lemma SettledTick(q: Machine, cfg: AppConfig)
    requires Inv(q) && q.booted && Flushed(q, cfg) && !q.x.disk.denyRoot
    requires q.now >= q.x.changedAt.value + q.x.promoteDebounce
    ensures var r := Next(q, TickNow).x;
      Pending(r) == 0 && r.active == cfg && r.disk.local.Some? && r.disk.local.value.text == Rendered(cfg)
      && r.disk.root.Some? && r.disk.root.value.text == Rendered(cfg) && WritesLocalNow(q, TickNow) == 0
  {
  }

  /** Both files hold this config, and nothing is pending. */
  ghost predicate Converged(x: State, cfg: AppConfig) {
    && Pending(x) == 0 && x.active == cfg
    && x.disk.local.Some? && Parse(x.disk.local.value.text) == Some(cfg)
    && x.disk.root.Some? && Parse(x.disk.root.value.text) == Some(cfg)
  }

  /** Left alone with a local write pending: once a tick has come at or after the write's due time, and another at
      least the promote debounce after that one, there has been exactly one local write, nothing is pending, and both
      files hold the active config. */
  lemma EditsReachBothFiles(m: Machine, xs: seq<Event>, ys: seq<Event>)
    requires Inv(m) && m.booted && Delivered(m.x) && m.x.pendingWrite && !m.x.disk.denyLocal && !m.x.disk.denyRoot
    requires QuietRun(m, xs) && After(m, xs).now >= m.x.writeAt.value
    requires QuietRun(After(m, xs + [TickNow]), ys)
    requires After(m, xs + [TickNow] + ys).now >= After(m, xs).x.disk.clock + m.x.promoteDebounce
    ensures var es := xs + [TickNow] + ys + [TickNow];
      LocalWrites(m, es) == 1 && Converged(After(m, es).x, m.x.active)
  {
    FlushedBy(m, xs);
    SettlesAfter(m, xs + [TickNow], ys, m.x.active);
    assert xs + [TickNow] + ys + [TickNow] == xs + [TickNow] + (ys + [TickNow]);
  }

  lemma SettlesAfter(m: Machine, xs: seq<Event>, ys: seq<Event>, cfg: AppConfig)
    requires var q := After(m, xs);
      && QuietRun(m, xs) && Inv(q) && q.booted && Delivered(q.x) && Flushed(q, cfg) && !q.x.disk.denyRoot && QuietRun(q, ys)
      && After(m, xs + ys).now >= q.x.changedAt.value + q.x.promoteDebounce
    ensures var es := xs + (ys + [TickNow]);
      LocalWrites(m, es) == LocalWrites(m, xs) && Converged(After(m, es).x, cfg)
  {
    Join(m, xs, ys);
    SettlesFrom(After(m, xs), ys, cfg);
    Join(m, xs, ys + [TickNow]);
  }

  /** From flushed edits: quiet events, then a settled tick. */
  lemma SettlesFrom(q: Machine, ys: seq<Event>, cfg: AppConfig)
    requires Inv(q) && q.booted && Delivered(q.x) && Flushed(q, cfg) && !q.x.disk.denyRoot && QuietRun(q, ys)
    requires After(q, ys).now >= q.x.changedAt.value + q.x.promoteDebounce
    ensures var es := ys + [TickNow];
      QuietRun(q, es) && LocalWrites(q, es) == 0 && Converged(After(q, es).x, cfg)
  {
    StaysFlushed(q, ys, cfg);
    ComesToRest(q, ys);
    SettledTick(After(q, ys), cfg);
    One(After(q, ys), TickNow);
    Join(q, ys, [TickNow]);
  }

  // ----- bursts -----

  /** GUI edits among quiet events, where no tick comes late enough to flush. */
  ghost predicate Burst(m: Machine, es: seq<Event>)
    decreases es
  {
    es == [] ||
    var q, e := After(m, es[..|es| - 1]), es[|es| - 1];
    && Burst(m, es[..|es| - 1])
    && ((e.Gui? && q.booted) || (QuietEvent(q, e) && (e.TickNow? ==> !WriteDue(q.x, q.now))))
  }

  /** The config after the edits of a burst. */
  function WithEdits(cfg: AppConfig, es: seq<Event>): AppConfig
    decreases es
  {
    if es == [] then cfg
    else
      var c := WithEdits(cfg, es[..|es| - 1]);
      if es[|es| - 1].Gui? then Edited(c, es[|es| - 1].edit) else c
  }

  lemma {:induction false} BurstHoldsBack(m: Machine, es: seq<Event>)
    requires Inv(m) && m.booted && Delivered(m.x) && Burst(m, es)
    ensures var r := After(m, es);
      && Inv(r) && r.booted && Delivered(r.x) && LocalWrites(m, es) == 0
      && r.x.active == WithEdits(m.x.active, es) && r.x.writeDebounce == m.x.writeDebounce
      && r.x.disk.denyLocal == m.x.disk.denyLocal && r.x.disk.denyRoot == m.x.disk.denyRoot
    decreases es
  {
    if es != [] {
      var front, e := es[..|es| - 1], es[|es| - 1];
      BurstHoldsBack(m, front);
      EventKeepsInv(After(m, front), e);
      if !e.Gui? {
        QuietStep(After(m, front), e);
      }
    }
  }

  lemma BurstGoesOn(m: Machine, burst: seq<Event>, edit: GuiEdit)
    requires Burst(m, burst) && After(m, burst).booted
    ensures var es := burst + [Gui(edit)];
      Burst(m, es) && After(m, es) == Next(After(m, burst), Gui(edit))
  {
    assert (burst + [Gui(edit)])[..|burst|] == burst;
  }

  lemma LastEdit(q: Machine, edit: GuiEdit)
    requires q.booted
    ensures var r := Next(q, Gui(edit)).x;
      r.pendingWrite && r.writeAt == Some(q.x.disk.clock + q.x.writeDebounce)
  {
  }

  lemma BurstEnds(m: Machine, burst: seq<Event>, edit: GuiEdit)
    requires Inv(m) && m.booted && Delivered(m.x) && Burst(m, burst)
    ensures var es := burst + [Gui(edit)]; var q := After(m, es);
      && Inv(q) && q.booted && Delivered(q.x) && LocalWrites(m, es) == 0 && q.x.active == WithEdits(m.x.active, es)
      && q.x.pendingWrite && q.x.writeAt == Some(After(m, burst).x.disk.clock + m.x.writeDebounce)
      && q.x.disk.denyLocal == m.x.disk.denyLocal && q.x.disk.denyRoot == m.x.disk.denyRoot
  {
    BurstHoldsBack(m, burst);
    BurstGoesOn(m, burst, edit);
    BurstHoldsBack(m, burst + [Gui(edit)]);
    LastEdit(After(m, burst), edit);
  }

  /** Convergence of GUI edits: any burst ending in an edit is not written while it lasts; its write is due the write
      debounce after the last edit and not before; left alone from then on, it makes exactly one local write, and
      after a settled tick both files hold the config with all edits applied. */
  lemma BurstConverges(m: Machine, burst: seq<Event>, edit: GuiEdit, xs: seq<Event>, ys: seq<Event>)
    requires Inv(m) && m.booted && Delivered(m.x) && !m.x.disk.denyLocal && !m.x.disk.denyRoot && Burst(m, burst)
    requires var q := After(m, burst + [Gui(edit)]);
      && QuietRun(q, xs) && After(q, xs).now >= q.x.writeAt.GetOr(0)
      && QuietRun(After(q, xs + [TickNow]), ys)
      && After(q, xs + [TickNow] + ys).now >= After(q, xs).x.disk.clock + q.x.promoteDebounce
    ensures var q := After(m, burst + [Gui(edit)]); var quiet := xs + [TickNow] + ys + [TickNow];
      && q.x.writeAt == Some(After(m, burst).x.disk.clock + m.x.writeDebounce)
      && LocalWrites(m, burst + [Gui(edit)] + quiet) == 1
      && Converged(After(m, burst + [Gui(edit)] + quiet).x, WithEdits(m.x.active, burst + [Gui(edit)]))
  {
    var es := burst + [Gui(edit)];
    BurstEnds(m, burst, edit);
    EditsReachBothFiles(After(m, es), xs, ys);
    Join(m, es, xs + [TickNow] + ys + [TickNow]);
  }

  // ----- the price of the self-write tolerance -----

  /** An edit by somebody else is noticed, by notification or by poll, exactly if its mtime lies outside the tolerance
      after the daemon's own last write of the file; inside it, the edit is taken for that write, and once a poll has
      noted the new mtime no later one will look at it either. */
  lemma ForeignEditNoticedIff(x: State, f: Which, t: Text, now: nat)
    requires f in x.selfWrites && x.selfWrites[f] < x.disk.nextMtime
    requires f in x.known && Earlier(x.known[f], x.disk.nextMtime)
    ensures var d := x.disk;
      var x' := x.(disk := PutFile(d, f, Some(SyncSteps.File(t, d.nextMtime))).(nextMtime := d.nextMtime + 1));
      && OnPathChanged(x', f, now).1 == PollOne(x', f, now).1 == (d.nextMtime >= x.selfWrites[f] + SELF_WRITE_TOLERANCE)
      && (!PollOne(x', f, now).1 ==> PollOne(x', f, now).0.active == x.active && !PollOne(PollOne(x', f, now).0, f, now).1)
  {
  }
}
