/** Nice and I/O priority of one process, and their reconciliation with a target, one poll after the other. */
module Reconcile {
  import opened Wrappers
  import opened Config
  import opened Rules

  // ----- the packed I/O priority -----

  const CLASS_UNIT := 8192
  const CLASSES := 8
  const PRIORITIES := 256

  datatype Ioprio = Ioprio(ioClass: IoniceClass, priority: U8)

  function ClassBits(c: IoniceClass): nat {
    match c
    case NoClass => 0
    case RealtimeClass => 1
    case BestEffort => 2
    case IdleClass => 3
  }

  /** The class above bit 13, the priority in the low byte; the bits between stay clear. */
  function Encode(io: Ioprio): nat { ClassBits(io.ioClass) * CLASS_UNIT + io.priority }

  /** Three class bits, of which everything above 2 reads as idle, and the low byte. */
  function Decode(v: nat): Ioprio {
    Ioprio(
      match v / CLASS_UNIT % CLASSES { case 0 => NoClass case 1 => RealtimeClass case 2 => BestEffort case _ => IdleClass },
      v % PRIORITIES)
  }

  /** Every class and every priority survives being written and read back. */
  lemma IoprioRoundTrip(io: Ioprio)
    ensures Decode(Encode(io)) == io
  {
    var c := ClassBits(io.ioClass);
    assert (c * CLASS_UNIT + io.priority) / CLASS_UNIT == c;
    assert c * CLASS_UNIT == c * 32 * PRIORITIES;
    assert (c * 32 * PRIORITIES + io.priority) % PRIORITIES == io.priority;
  }

  /** A value read survives being written back exactly if it has one of the four classes and a one-byte priority. */
  lemma IoprioReadBackIff(v: nat)
    ensures Encode(Decode(v)) == v <==> v / CLASS_UNIT <= 3 && v % CLASS_UNIT < PRIORITIES
  {
    var q, r := v / CLASS_UNIT, v % CLASS_UNIT;
    assert v == q * CLASS_UNIT + r;
    assert q * CLASS_UNIT == q * 32 * PRIORITIES;
    assert v % PRIORITIES == r % PRIORITIES;
    if Encode(Decode(v)) == v {
      IoprioRange(Decode(v));
    }
  }

  lemma IoprioRange(io: Ioprio)
    ensures Encode(io) / CLASS_UNIT == ClassBits(io.ioClass) && Encode(io) % CLASS_UNIT == io.priority
  {
  }

  // ----- the kernel's side -----

  const MIN_NICE := -20
  const MAX_NICE := 19

  function Clamp(n: int): int { Max(MIN_NICE, Min(n, MAX_NICE)) }

  datatype Call = SetNice(n: int) | SetIoprio(v: nat)

  /** A process as the kernel sees it; `ioprio` is None where it cannot be read, and `ioAllowed` tells whether the
      kernel accepts an I/O priority for it. */
  datatype Proc = Proc(nice: int, ioprio: Option<nat>, rt: bool, ioAllowed: bool)

  predicate ValidProc(p: Proc) { MIN_NICE <= p.nice <= MAX_NICE }

  /** `setpriority` pulls its argument into range; only root may lower the value. */
  function SetPriority(root: bool, p: Proc, n: int): Proc {
    if !root && Clamp(n) < p.nice then p else p.(nice := Clamp(n))
  }

  function IoprioSet(p: Proc, v: nat): Proc { if p.ioAllowed then p.(ioprio := Some(v)) else p }

  // ----- one reconciliation -----

  /** The value the daemon passes to `setpriority`: a user daemon asks for no negative one. */
  function NiceArgument(root: bool, n: int): int { if n < 0 && !root then 0 else n }

  function EffectiveNice(root: bool, p: Proc, t: ApplyTarget): int { if root then t.nice else Max(t.nice, p.nice) }

  function NiceCalls(root: bool, p: Proc, t: ApplyTarget): seq<Call> {
    if p.rt || p.nice == EffectiveNice(root, p, t) then []
    else [SetNice(NiceArgument(root, EffectiveNice(root, p, t)))]
  }

  function Wanted(t: ApplyTarget): Ioprio { Ioprio(t.ioniceClass, t.ionicePriority) }

  predicate Differs(p: Proc, io: Ioprio) { p.ioprio.None? || Decode(p.ioprio.value) != io }

  predicate IoDiffers(p: Proc, t: ApplyTarget) { Differs(p, Wanted(t)) }

  /** No class means: leave the I/O priority alone. */
  function CallsForIo(p: Proc, io: Ioprio): seq<Call> {
    if io.ioClass.NoClass? || !Differs(p, io) then [] else [SetIoprio(Encode(io))]
  }

  function IoCalls(p: Proc, t: ApplyTarget): seq<Call> { if p.rt then [] else CallsForIo(p, Wanted(t)) }

  function Calls(root: bool, p: Proc, t: ApplyTarget): seq<Call> { NiceCalls(root, p, t) + IoCalls(p, t) }

  function Do(root: bool, p: Proc, c: Call): Proc {
    match c
    case SetNice(n) => SetPriority(root, p, n)
    case SetIoprio(v) => IoprioSet(p, v)
  }

  function DoAll(root: bool, p: Proc, calls: seq<Call>): Proc
    decreases calls
  {
    if calls == [] then p else Do(root, DoAll(root, p, calls[..|calls| - 1]), calls[|calls| - 1])
  }

  function Applied(root: bool, p: Proc, t: ApplyTarget): Proc { DoAll(root, p, Calls(root, p, t)) }

  // ----- a tier edit's immediate effect -----

  /** What a tier edit does at once to a process of its name.  The preset is compared with `seen`, the nice value in the
      table of the last poll, which that poll read before it applied anything; real-time scheduling is not looked at. */
  function CallsNow(root: bool, p: Proc, seen: int, preset: Preset): seq<Call> {
    (if seen == preset.nice then [] else [SetNice(NiceArgument(root, preset.nice))])
    + CallsForIo(p, Ioprio(preset.ioniceClass, preset.ionicePriority))
  }

  function AppliedNow(root: bool, p: Proc, seen: int, preset: Preset): Proc { DoAll(root, p, CallsNow(root, p, seen, preset)) }

  // ----- the processes of the system -----

  type Procs = map<nat, Proc>

  /** Targets applied one after the other; calls for a process that is gone fail without effect. */
  function AppliedAll(root: bool, procs: Procs, targets: seq<(nat, ApplyTarget)>): Procs
    decreases targets
  {
    if targets == [] then procs
    else
      var front, (pid, t) := AppliedAll(root, procs, targets[..|targets| - 1]), targets[|targets| - 1];
      if pid in front then front[pid := Applied(root, front[pid], t)] else front
  }

  /** The processes as an object; `calls` is a ghost log of the system calls that reached one. */
  class Scheduler {
    var procs: Procs
    ghost var calls: seq<(nat, Call)>

    method Renice(root: bool, pid: nat, nice: int)
      modifies this
      ensures procs ==
              if pid in old(procs) then old(procs)[pid := SetPriority(root, old(procs)[pid], NiceArgument(root, nice))]
              else old(procs)
      ensures calls == if pid in old(procs) then old(calls) + [(pid, SetNice(NiceArgument(root, nice)))] else old(calls)
    {
      var n := nice;
      if n < 0 && !root {
        n := 0;
      }
      if pid in procs {
        procs := procs[pid := SetPriority(root, procs[pid], n)];
        calls := calls + [(pid, SetNice(n))];
      }
    }

    method Reionice(pid: nat, io: Ioprio)
      modifies this
      ensures procs == if pid in old(procs) then old(procs)[pid := IoprioSet(old(procs)[pid], Encode(io))] else old(procs)
      ensures calls == if pid in old(procs) then old(calls) + [(pid, SetIoprio(Encode(io)))] else old(calls)
    {
      if pid in procs {
        procs := procs[pid := IoprioSet(procs[pid], Encode(io))];
        calls := calls + [(pid, SetIoprio(Encode(io)))];
      }
    }

    /** The I/O priority as shown: no class where it cannot be read. */
    method GetIoprio(pid: nat) returns (ioClass: IoniceClass, priority: U8)
      ensures Ioprio(ioClass, priority) ==
              if pid in procs && procs[pid].ioprio.Some? then Decode(procs[pid].ioprio.value) else Ioprio(NoClass, 0)
    {
      var io := if pid in procs && procs[pid].ioprio.Some? then Decode(procs[pid].ioprio.value) else Ioprio(NoClass, 0);
      ioClass, priority := io.ioClass, io.priority;
    }

    /** Ask for the I/O priority, and set it where it differs. */
    method ReioniceIfNeeded(pid: nat, io: Ioprio)
      modifies this
      ensures pid in old(procs) ==>
                var cs := CallsForIo(old(procs)[pid], io);
                && calls == old(calls) + Logged(pid, cs)
                && procs == if cs == [] then old(procs) else old(procs)[pid := IoprioSet(old(procs)[pid], Encode(io))]
      ensures pid !in old(procs) ==> procs == old(procs) && calls == old(calls)
    {
      if io.ioClass != NoClass {
        var differs := pid !in procs || procs[pid].ioprio.None? || Decode(procs[pid].ioprio.value) != io;
        if differs {
          Reionice(pid, io);
        }
      }
    }

    /** A tier edit's immediate effect on one process. */
    method ApplyNow(root: bool, pid: nat, seen: int, preset: Preset)
      modifies this
      ensures pid in old(procs) ==>
                && calls == old(calls) + Logged(pid, CallsNow(root, old(procs)[pid], seen, preset))
                && procs == old(procs)[pid := AppliedNow(root, old(procs)[pid], seen, preset)]
      ensures pid !in old(procs) ==> procs == old(procs) && calls == old(calls)
    {
      var io := Ioprio(preset.ioniceClass, preset.ionicePriority);
      if pid in procs {
        ghost var n := if seen == preset.nice then [] else [SetNice(NiceArgument(root, preset.nice))];
        TwoCalls(root, procs[pid], n, CallsForIo(procs[pid], io));
        LogTwo(pid, n, CallsForIo(procs[pid], io));
      }
      if seen != preset.nice {
        Renice(root, pid, preset.nice);
      }
      ReioniceIfNeeded(pid, io);
    }

    /** Reconcile one process with a target: compare, and issue only the calls that are needed.  `scanned` is the nice
        value that this poll's scan has just read. */
    method ApplyTo(root: bool, pid: nat, scanned: int, t: ApplyTarget)
      requires pid in procs ==> procs[pid].nice == scanned
      modifies this
      ensures pid in old(procs) ==>
                && calls == old(calls) + Logged(pid, Calls(root, old(procs)[pid], t))
                && procs == old(procs)[pid := Applied(root, old(procs)[pid], t)]
      ensures pid !in old(procs) ==> procs == old(procs) && calls == old(calls)
    {
      if pid in procs {
        AppliedMeaning(root, procs[pid], t);
        LogTwo(pid, NiceCalls(root, procs[pid], t), IoCalls(procs[pid], t));
        if procs[pid].rt {
          assert procs == procs[pid := procs[pid]];
          return;
        }
      }
      var effective := if root then t.nice else Max(t.nice, scanned);
      if scanned != effective {
        Renice(root, pid, effective);
      }
      ReioniceIfNeeded(pid, Wanted(t));
    }
  }

  function Logged(pid: nat, cs: seq<Call>): seq<(nat, Call)>
    decreases cs
  {
    if cs == [] then [] else [(pid, cs[0])] + Logged(pid, cs[1..])
  }

  lemma LogTwo(pid: nat, n: seq<Call>, i: seq<Call>)
    requires |n| <= 1 && |i| <= 1
    ensures Logged(pid, n + i) == Logged(pid, n) + Logged(pid, i)
    ensures |n| == 1 ==> Logged(pid, n) == [(pid, n[0])]
    ensures |i| == 1 ==> Logged(pid, i) == [(pid, i[0])]
  {
    if n == [] {
      assert n + i == i;
    } else {
      assert (n + i)[1..] == i;
    }
  }

  lemma TwoCalls(root: bool, p: Proc, n: seq<Call>, i: seq<Call>)
    requires (n == [] || (|n| == 1 && n[0].SetNice?)) && (i == [] || (|i| == 1 && i[0].SetIoprio?))
    ensures var p1 := if n == [] then p else SetPriority(root, p, n[0].n);
      DoAll(root, p, n + i) == if i == [] then p1 else IoprioSet(p1, i[0].v)
  {
    assert DoAll(root, p, []) == p;
    if n != [] {
      assert n[..0] == [];
      assert DoAll(root, p, n) == SetPriority(root, p, n[0].n);
    }
    if i != [] {
      assert (n + i)[..|n + i| - 1] == n;
    } else {
      assert n + i == n;
    }
  }

  function PresetOf(t: ApplyTarget): Preset { Preset(t.nice, t.ioniceClass, t.ionicePriority) }

  /** The next poll would leave the nice value alone: it has the value already, or is a user daemon's and as high. */
  predicate LeftAlone(root: bool, p: Proc, n: int) {
    if root then Clamp(n) == p.nice else n <= p.nice || p.nice == MAX_NICE
  }

  lemma NowMeaning(root: bool, p: Proc, seen: int, t: ApplyTarget)
    ensures var p1 := if seen == t.nice then p else SetPriority(root, p, NiceArgument(root, t.nice));
      AppliedNow(root, p, seen, PresetOf(t)) == if CallsForIo(p, Wanted(t)) == [] then p1 else IoprioSet(p1, Encode(Wanted(t)))
  {
    TwoCalls(root, p, if seen == t.nice then [] else [SetNice(NiceArgument(root, t.nice))], CallsForIo(p, Wanted(t)));
  }

  /** Setting the I/O priority leaves the nice value alone, and does to two processes that differ only there the same. */
  lemma NiceApart(a: Proc, b: Proc, sets: bool, v: nat)
    requires a == b.(nice := a.nice)
    ensures var a' := if sets then IoprioSet(a, v) else a; var b' := if sets then IoprioSet(b, v) else b;
      (a' == b' <==> a.nice == b.nice) && a'.nice == a.nice && b'.nice == b.nice
  {
  }

  lemma SetsOnlyNice(root: bool, p: Proc, n: int)
    ensures SetPriority(root, p, n) == p.(nice := SetPriority(root, p, n).nice)
  {
  }

  /** The two differ in the nice value or not at all. */
  lemma NowButNice(root: bool, p: Proc, seen: int, t: ApplyTarget)
    requires !p.rt
    ensures var now := AppliedNow(root, p, seen, PresetOf(t));
      && (now == Applied(root, p, t) <==> now.nice == Applied(root, p, t).nice)
      && now.nice == if seen == t.nice then p.nice else SetPriority(root, p, NiceArgument(root, t.nice)).nice
  {
    AppliedMeaning(root, p, t);
    NowMeaning(root, p, seen, t);
    SetsOnlyNice(root, p, NiceArgument(root, t.nice));
    SetsOnlyNice(root, p, NiceArgument(root, EffectiveNice(root, p, t)));
    var now := if seen == t.nice then p else SetPriority(root, p, NiceArgument(root, t.nice));
    var polled := if NiceCalls(root, p, t) == [] then p else SetPriority(root, p, NiceCalls(root, p, t)[0].n);
    NiceApart(now, polled, CallsForIo(p, Wanted(t)) != [], Encode(Wanted(t)));
  }

  /** A tier edit's immediate effect on an ordinary process is that of the next poll exactly in these cases.  With the
      tier's nice in the table nothing is called: if the poll would leave the present value alone.  With another value
      there: if the daemon is root, or the present value is not a negative one as high as the tier's or higher, which a
      user daemon's edit replaces by 0. */
  lemma ImmediateMatchesPollIff(root: bool, p: Proc, seen: int, t: ApplyTarget)
    requires ValidProc(p) && !p.rt
    ensures AppliedNow(root, p, seen, PresetOf(t)) == Applied(root, p, t) <==>
            if seen == t.nice then LeftAlone(root, p, t.nice) else root || !(t.nice <= p.nice < 0)
    ensures seen == t.nice ==> AppliedNow(root, p, seen, PresetOf(t)).nice == p.nice
    ensures seen != t.nice && !root && t.nice <= p.nice < 0 ==>
              AppliedNow(root, p, seen, PresetOf(t)).nice == 0 && Applied(root, p, t).nice == p.nice
  {
    NowButNice(root, p, seen, t);
    NiceAfter(root, p, t);
  }

  /** Polls leave a real-time process alone; the immediate effect does so exactly if the table shows the tier's nice or
      the kernel would not change the value, and the I/O priority is unwanted, there already, or refused. */
  lemma ImmediateSparesRtIff(root: bool, p: Proc, seen: int, t: ApplyTarget)
    requires ValidProc(p) && p.rt
    ensures AppliedNow(root, p, seen, PresetOf(t)) == Applied(root, p, t) <==>
            && (seen == t.nice || (if root then Clamp(t.nice) == p.nice else Clamp(Max(t.nice, 0)) <= p.nice))
            && (t.ioniceClass.NoClass? || !IoDiffers(p, t) || !p.ioAllowed)
  {
    NeverLowers(root, p, t);
    NowMeaning(root, p, seen, t);
    IoprioRoundTrip(Wanted(t));
  }

  function NiceTarget(n: int): ApplyTarget { ApplyTarget(None, n, NoClass, 0, None, None) }

  /** Two inputs.  Root: a rule's poll has set 10 where the table still shows 0; an edit to nice 0 then does nothing,
      which only the next poll makes up for.  A user daemon: another value in the table than the -8 the process has and
      the tier asks for; the edit sets it to 0. */
  lemma StaleTableMisleads()
    ensures var p := Applied(true, Proc(0, None, false, true), NiceTarget(10)); var edit := NiceTarget(0);
      p.nice == 10 && AppliedNow(true, p, 0, PresetOf(edit)).nice == 10 && Applied(true, p, edit).nice == 0
    ensures var p := Proc(-8, None, false, true); var edit := NiceTarget(-8);
      AppliedNow(false, p, 5, PresetOf(edit)).nice == 0 && Applied(false, p, edit).nice == -8
  {
    var born := Proc(0, None, false, true);
    NiceAfter(true, born, NiceTarget(10));
    AppliedMeaning(true, born, NiceTarget(10));
    var p := Applied(true, born, NiceTarget(10));
    ImmediateMatchesPollIff(true, p, 0, NiceTarget(0));
    NiceAfter(true, p, NiceTarget(0));
    ImmediateMatchesPollIff(false, Proc(-8, None, false, true), 5, NiceTarget(-8));
  }

  /** The two calls do not interfere. */
  lemma AppliedMeaning(root: bool, p: Proc, t: ApplyTarget)
    ensures var p1 := if NiceCalls(root, p, t) == [] then p else SetPriority(root, p, NiceCalls(root, p, t)[0].n);
      Applied(root, p, t) == if IoCalls(p, t) == [] then p1 else IoprioSet(p1, Encode(Wanted(t)))
  {
    TwoCalls(root, p, NiceCalls(root, p, t), IoCalls(p, t));
  }

  /** Where a reconciliation leaves the nice value: root gets its target pulled into range; a user daemon leaves alone
      what is already as high as its target, and otherwise raises it to the target, but not below 0. */
  lemma NiceAfter(root: bool, p: Proc, t: ApplyTarget)
    requires ValidProc(p) && !p.rt
    ensures Applied(root, p, t).nice ==
            if root then Clamp(t.nice) else if t.nice <= p.nice then p.nice else Clamp(Max(t.nice, 0))
  {
    AppliedMeaning(root, p, t);
  }

  /** A user daemon never lowers a nice value, and nothing is ever done to a real-time process. */
  lemma NeverLowers(root: bool, p: Proc, t: ApplyTarget)
    requires ValidProc(p)
    ensures !root ==> Applied(root, p, t).nice >= p.nice
    ensures p.rt ==> Calls(root, p, t) == [] && Applied(root, p, t) == p
    ensures ValidProc(Applied(root, p, t))
  {
    AppliedMeaning(root, p, t);
    if !p.rt {
      NiceAfter(root, p, t);
    }
  }

  /** The nice values that can be reached. */
  predicate Reachable(root: bool, n: int) { n <= MAX_NICE && (root ==> MIN_NICE <= n) }

  lemma NiceSettlesIff(root: bool, p: Proc, t: ApplyTarget)
    requires ValidProc(p) && !p.rt
    ensures NiceCalls(root, Applied(root, p, t), t) == [] <==> Reachable(root, t.nice)
  {
    AppliedMeaning(root, p, t);
    NiceAfter(root, p, t);
  }

  lemma IoSettlesIff(root: bool, p: Proc, t: ApplyTarget)
    requires !p.rt
    ensures IoCalls(Applied(root, p, t), t) == [] <==> t.ioniceClass.NoClass? || !IoDiffers(p, t) || p.ioAllowed
  {
    AppliedMeaning(root, p, t);
    IoprioRoundTrip(Wanted(t));
  }

  /** Reconciliation reaches a fixed point: the next poll issues no system call exactly if the process is real-time, or
      the target's nice is one the kernel can hold (for a user daemon: at most 19) and the I/O priority is left alone,
      already there, or accepted by the kernel.  A target nice out of range is written again at every poll. */
  lemma SettlesIff(root: bool, p: Proc, t: ApplyTarget)
    requires ValidProc(p)
    ensures Calls(root, Applied(root, p, t), t) == [] <==>
            p.rt || (Reachable(root, t.nice) && (t.ioniceClass.NoClass? || !IoDiffers(p, t) || p.ioAllowed))
  {
    AppliedMeaning(root, p, t);
    if !p.rt {
      NiceSettlesIff(root, p, t);
      IoSettlesIff(root, p, t);
    }
  }

  function Polls(root: bool, p: Proc, t: ApplyTarget, n: nat): Proc {
    if n == 0 then p else Applied(root, Polls(root, p, t, n - 1), t)
  }

  /** Once settled, always settled: after the first poll every later one finds and leaves the process as it is. */
  lemma {:induction false} SettledForGood(root: bool, p: Proc, t: ApplyTarget, n: nat)
    requires ValidProc(p) && n > 0
    requires p.rt || (Reachable(root, t.nice) && (t.ioniceClass.NoClass? || !IoDiffers(p, t) || p.ioAllowed))
    ensures Polls(root, p, t, n) == Applied(root, p, t) && Calls(root, Polls(root, p, t, n), t) == []
  {
    SettlesIff(root, p, t);
    if n == 1 {
      assert Polls(root, p, t, 0) == p;
    } else {
      SettledForGood(root, p, t, n - 1);
      assert DoAll(root, Applied(root, p, t), []) == Applied(root, p, t);
    }
  }

  lemma StaysValid(root: bool, p: Proc, t: ApplyTarget)
    requires ValidProc(p) && !p.rt
    ensures ValidProc(Applied(root, p, t)) && !Applied(root, p, t).rt
  {
    NeverLowers(root, p, t);
    AppliedMeaning(root, p, t);
  }

  lemma AlwaysOff(root: bool, p: Proc, t: ApplyTarget)
    requires ValidProc(p) && !p.rt && !Reachable(root, t.nice)
    ensures Calls(root, p, t) != []
  {
    assert p.nice != EffectiveNice(root, p, t);
  }

  lemma {:induction false} ValidForEver(root: bool, p: Proc, t: ApplyTarget, n: nat)
    requires ValidProc(p) && !p.rt
    ensures ValidProc(Polls(root, p, t, n)) && !Polls(root, p, t, n).rt
  {
    if n > 0 {
      ValidForEver(root, p, t, n - 1);
      StaysValid(root, Polls(root, p, t, n - 1), t);
    }
  }

  /** With a nice out of reach every poll, for ever, finds the process off its target and writes again. */
  lemma {:induction false} NeverSettles(root: bool, p: Proc, t: ApplyTarget, n: nat)
    requires ValidProc(p) && !p.rt && !Reachable(root, t.nice)
    ensures Calls(root, Polls(root, p, t, n), t) != []
  {
    ValidForEver(root, p, t, n);
    AlwaysOff(root, Polls(root, p, t, n), t);
  }
}
