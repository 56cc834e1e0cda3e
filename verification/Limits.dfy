/** `apply_limits`: the control-file writes that one set of limits asks for, in order, stopping at the
    first one that is refused. */
module Limits {
  import opened Wrappers
  import opened Config
  import opened Cgroupfs
  import Text

  const MAX_CAP_PERCENT := 3200
  const PERIOD_US := 100_000

  /** One step of `apply_limits`: a write, or a value the daemon itself refuses to write. */
  datatype Request = Put(file: File, value: Value) | Reject

  /** A cgroup byte size: `max`, or digits with at most one of the suffixes K, M, G, T. */
  predicate SizeValid(s: string) {
    var t := Text.Trim(s);
    t == "max" ||
    var digits := if t != [] && t[|t| - 1] in "kKmMgGtT" then t[..|t| - 1] else t;
    digits != [] && forall i | 0 <= i < |digits| :: Text.IsDigit(digits[i])
  }

  function CapRequests(l: CgroupLimits): seq<Request> {
    match l.cpuCapPercent
    case Some(pct) => [Put(CpuMax, Quota(Max(Min(pct, MAX_CAP_PERCENT), 1) * (PERIOD_US / 100), PERIOD_US))]
    case None => []
  }

  /** The weight is written only when `cpu_idle` is unset. */
  function ShareRequests(l: CgroupLimits): seq<Request> {
    match l.cpuIdle
    case Some(idle) => [Put(CpuIdle, Flag(idle))]
    case None => if l.cpuWeight.Some? then [Put(CpuWeight, Weight(l.cpuWeight.value))] else []
  }

  function SizeRequests(f: File, size: Option<string>): seq<Request> {
    match size
    case Some(s) => if SizeValid(s) then [Put(f, Size(Text.Trim(s)))] else [Reject]
    case None => []
  }

  function Requests(l: CgroupLimits): seq<Request> {
    CapRequests(l) + ShareRequests(l) + SizeRequests(MemoryHigh, l.memoryHigh) + SizeRequests(MemoryMax, l.memoryMax)
  }

  predicate Allowed(k: Kernel, base: Option<Dir>, d: Dir, r: Request) {
    r.Put? && CanWrite(k, base, d, r.file)
  }

  function ApplyAll(k: Kernel, base: Option<Dir>, d: Dir, rs: seq<Request>): (Kernel, bool)
    decreases rs
  {
    if rs == [] then (k, true)
    else if !Allowed(k, base, d, rs[0]) then (k, false)
    else ApplyAll(Write(k, d, rs[0].file, rs[0].value), base, d, rs[1..])
  }

  function Apply(k: Kernel, base: Option<Dir>, d: Dir, l: CgroupLimits): (Kernel, bool) {
    ApplyAll(k, base, d, Requests(l))
  }

  /** Directory `d` holds every value that applying `l` would write. */
  ghost predicate Holds(k: Kernel, d: Dir, l: CgroupLimits) {
    HoldsAll(k, d, Requests(l))
  }

  ghost predicate HoldsAll(k: Kernel, d: Dir, rs: seq<Request>) {
    forall i | 0 <= i < |rs| && rs[i].Put? :: (d, rs[i].file) in k.files && k.files[(d, rs[i].file)] == rs[i].value
  }

  /** The kernel would take each of the values as things stand. */
  ghost predicate Writable(k: Kernel, base: Option<Dir>, d: Dir, rs: seq<Request>) {
    forall i | 0 <= i < |rs| :: Allowed(k, base, d, rs[i])
  }

  /** No file is asked for twice, and an idle flag never comes with a weight. */
  ghost predicate Separate(rs: seq<Request>) {
    && (forall i, j | 0 <= i < j < |rs| && rs[i].Put? && rs[j].Put? :: rs[i].file != rs[j].file)
    && (forall i, j | 0 <= i < |rs| && 0 <= j < |rs| && rs[i].Put? && rs[j].Put? :: !(rs[i].file.CpuIdle? && rs[j].file.CpuWeight?))
  }

  /** Nothing outside the control files of `d` changes. */
  ghost predicate OnlyFilesOf(k: Kernel, k': Kernel, d: Dir) {
    && k' == k.(files := k'.files)
    && (forall e | e in k'.files :: e in k.files || e.0 == d)
    && (forall e | e in k.files :: e in k'.files && (e.0 != d ==> k'.files[e] == k.files[e]))
  }

  lemma JoinsSeparate(xs: seq<Request>, ys: seq<Request>)
    requires Separate(xs) && Separate(ys)
    requires forall x, y | x in xs && y in ys && x.Put? && y.Put? ::
               x.file != y.file && !(x.file.CpuIdle? && y.file.CpuWeight?) && !(y.file.CpuIdle? && x.file.CpuWeight?)
    ensures Separate(xs + ys)
  {
    var rs := xs + ys;
    forall i, j | 0 <= i < |rs| && 0 <= j < |rs| && rs[i].Put? && rs[j].Put?
      ensures (i < j ==> rs[i].file != rs[j].file) && !(rs[i].file.CpuIdle? && rs[j].file.CpuWeight?)
    {
      if i < |xs| && j >= |xs| {
        assert rs[i] in xs && rs[j] in ys;
      } else if i >= |xs| && j < |xs| {
        assert rs[j] in xs && rs[i] in ys;
      }
    }
  }

  lemma RequestsSeparate(l: CgroupLimits)
    ensures Separate(Requests(l))
  {
    assert |CapRequests(l)| <= 1 && |ShareRequests(l)| <= 1;
    assert |SizeRequests(MemoryHigh, l.memoryHigh)| <= 1 && |SizeRequests(MemoryMax, l.memoryMax)| <= 1;
    JoinsSeparate(SizeRequests(MemoryHigh, l.memoryHigh), SizeRequests(MemoryMax, l.memoryMax));
    JoinsSeparate(CapRequests(l), ShareRequests(l));
    JoinsSeparate(CapRequests(l) + ShareRequests(l), SizeRequests(MemoryHigh, l.memoryHigh) + SizeRequests(MemoryMax, l.memoryMax));
    assert Requests(l) ==
      CapRequests(l) + ShareRequests(l) + (SizeRequests(MemoryHigh, l.memoryHigh) + SizeRequests(MemoryMax, l.memoryMax));
  }

  predicate Asks(rs: seq<Request>, f: File) { exists i :: 0 <= i < |rs| && rs[i].Put? && rs[i].file == f }

  lemma IdleNotAsked(l: CgroupLimits)
    requires l.cpuIdle.None?
    ensures !Asks(Requests(l), CpuIdle)
  {
    forall r | r in Requests(l)
      ensures !(r.Put? && r.file.CpuIdle?)
    {
      assert r in CapRequests(l) || r in ShareRequests(l) || r in SizeRequests(MemoryHigh, l.memoryHigh)
             || r in SizeRequests(MemoryMax, l.memoryMax);
    }
  }

  lemma {:induction false} KeepsFile(k: Kernel, base: Option<Dir>, d: Dir, rs: seq<Request>, f: File)
    requires !Asks(rs, f)
    ensures var k' := ApplyAll(k, base, d, rs).0;
      ((d, f) in k'.files <==> (d, f) in k.files) && ((d, f) in k.files ==> k'.files[(d, f)] == k.files[(d, f)])
    decreases rs
  {
    if rs != [] && Allowed(k, base, d, rs[0]) {
      assert rs[0].Put? ==> rs[0].file != f;
      forall i | 0 <= i < |rs[1..]| && rs[1..][i].Put?
        ensures rs[1..][i].file != f
      {
        assert rs[1..][i] == rs[i + 1];
      }
      KeepsFile(Write(k, d, rs[0].file, rs[0].value), base, d, rs[1..], f);
    }
  }

  lemma {:induction false} TouchesOnly(k: Kernel, base: Option<Dir>, d: Dir, rs: seq<Request>)
    ensures OnlyFilesOf(k, ApplyAll(k, base, d, rs).0, d)
    decreases rs
  {
    if rs != [] && Allowed(k, base, d, rs[0]) {
      TouchesOnly(Write(k, d, rs[0].file, rs[0].value), base, d, rs[1..]);
    }
  }

  lemma {:induction false} ApplyAllMeaning(k: Kernel, base: Option<Dir>, d: Dir, rs: seq<Request>)
    requires Separate(rs)
    ensures ApplyAll(k, base, d, rs).1 <==> Writable(k, base, d, rs)
    ensures ApplyAll(k, base, d, rs).1 ==> HoldsAll(ApplyAll(k, base, d, rs).0, d, rs)
    decreases rs
  {
    if rs != [] && Allowed(k, base, d, rs[0]) {
      var k1 := Write(k, d, rs[0].file, rs[0].value);
      assert forall i | 0 <= i < |rs| - 1 :: rs[1..][i] == rs[i + 1];
      ApplyAllMeaning(k1, base, d, rs[1..]);
      assert forall i | 1 <= i < |rs| :: Allowed(k, base, d, rs[i]) <==> Allowed(k1, base, d, rs[1..][i - 1]);
      KeepsFile(k1, base, d, rs[1..], rs[0].file);
    }
  }

  /** `apply_limits` succeeds exactly when every size is well formed and the kernel would take every value now;
      it then leaves every value in place.  In either case it touches nothing but files of `d`. */
  lemma ApplyMeaning(k: Kernel, base: Option<Dir>, d: Dir, l: CgroupLimits)
    ensures Apply(k, base, d, l).1 <==> Writable(k, base, d, Requests(l))
    ensures Apply(k, base, d, l).1 ==> Holds(Apply(k, base, d, l).0, d, l)
    ensures OnlyFilesOf(k, Apply(k, base, d, l).0, d)
  {
    RequestsSeparate(l);
    ApplyAllMeaning(k, base, d, Requests(l));
    TouchesOnly(k, base, d, Requests(l));
  }

  // ----- a weight for an idle dir -----

  /** The weight that `l` asks for would be rejected because the dir is idle, and `l` does not say otherwise. */
  predicate Stuck(k: Kernel, d: Dir, l: CgroupLimits) {
    IsIdle(k, d) && l.cpuIdle.None? && l.cpuWeight.Some?
  }

  /** Nothing but idleness can stand in the way: the dir is there, sizes are well formed, the files are not denied and
      the controllers are on. */
  ghost predicate Willing(k: Kernel, base: Option<Dir>, d: Dir, l: CgroupLimits) {
    d in k.dirs && forall i | 0 <= i < |Requests(l)| ::
      var r := Requests(l)[i];
      r.Put? && (d, r.file) !in k.deny.writes && (IsCpuFile(r.file) && Below(base, d) ==> k.subtreeCpu)
  }

  lemma WeightIsAsked(l: CgroupLimits)
    requires l.cpuIdle.None? && l.cpuWeight.Some?
    ensures |CapRequests(l)| < |Requests(l)| && Requests(l)[|CapRequests(l)|] == Put(CpuWeight, Weight(l.cpuWeight.value))
  {
  }

  lemma WeightAskedIff(l: CgroupLimits)
    ensures (exists i :: 0 <= i < |Requests(l)| && Requests(l)[i].Put? && Requests(l)[i].file.CpuWeight?) <==>
            l.cpuIdle.None? && l.cpuWeight.Some?
  {
    if l.cpuIdle.None? && l.cpuWeight.Some? {
      WeightIsAsked(l);
    }
  }

  /** Everything else being writable, the limits go through exactly if no weight meets an idle dir. */
  lemma WillingAppliesIff(k: Kernel, base: Option<Dir>, d: Dir, l: CgroupLimits)
    requires Willing(k, base, d, l)
    ensures Apply(k, base, d, l).1 <==> !Stuck(k, d, l)
  {
    ApplyMeaning(k, base, d, l);
    WeightAskedIff(l);
    if Stuck(k, d, l) {
      WeightIsAsked(l);
      assert !Allowed(k, base, d, Requests(l)[|CapRequests(l)|]);
    }
  }

  /** Where a weight meets an idle dir the writes stop there: of all of them only the cap can have been made, and the
      memory limits stay as they were. */
  lemma StuckStops(k: Kernel, base: Option<Dir>, d: Dir, l: CgroupLimits)
    requires Stuck(k, d, l)
    ensures !Apply(k, base, d, l).1 && Apply(k, base, d, l).0 == ApplyAll(k, base, d, CapRequests(l)).0
    ensures forall f | f != CpuMax :: var k' := Apply(k, base, d, l).0;
              ((d, f) in k'.files <==> (d, f) in k.files) && ((d, f) in k.files ==> k'.files[(d, f)] == k.files[(d, f)])
  {
    var rs, cap := Requests(l), CapRequests(l);
    WeightIsAsked(l);
    if cap == [] {
      assert ApplyAll(k, base, d, rs).0 == k;
    } else if Allowed(k, base, d, cap[0]) {
      var k1 := Write(k, d, CpuMax, cap[0].value);
      assert rs[1..][0] == rs[1] && cap[1..] == [];
      assert IsIdle(k1, d);
      assert ApplyAll(k1, base, d, rs[1..]) == (k1, false);
    }
  }
}
