/** The process table, its difference between two polls, and the GUI's copy of it. */
module Tables {
  import opened Wrappers
  import opened Config
  import opened Ascend

  type Pid = nat

  datatype Info = Info(
    pid: Pid, ppid: Pid, name: string, user: string, cpu: real, memKb: nat, status: string, nice: int,
    ioniceClass: IoniceClass, ionicePriority: U8, tier: Option<Tier>, capped: bool, gameDetected: bool,
    exe: Option<string>, startSecs: nat)

  type Table = map<Pid, Info>

  datatype Diff = Diff(added: seq<Info>, updated: seq<Info>, removed: seq<Pid>) {
    predicate IsEmpty() { added == [] && updated == [] && removed == [] }
  }

  const CPU_STEP := 0.05

  function Abs(x: real): real { if x < 0.0 then -x else x }

  /** Equal in every field the daemon compares exactly; `exe` and the start time are not looked at. */
  predicate SameButCpu(a: Info, b: Info) {
    && a.ppid == b.ppid && a.name == b.name && a.user == b.user && a.memKb == b.memKb && a.status == b.status
    && a.nice == b.nice && a.ioniceClass == b.ioniceClass && a.ionicePriority == b.ionicePriority
    && a.tier == b.tier && a.capped == b.capped && a.gameDetected == b.gameDetected
  }

  predicate ProcessChanged(a: Info, b: Info) {
    !SameButCpu(a, b) || Abs(a.cpu - b.cpu) > CPU_STEP
  }

  /** Entries are filed under their own pid. */
  ghost predicate Keyed(t: Table) {
    forall p | p in t :: t[p].pid == p
  }

  /** The difference between the tables of two polls, in any order. */
  ghost predicate IsDiff(d: Diff, prev: Table, cur: Table) {
    && (forall i :: i in d.added <==> i.pid in cur && cur[i.pid] == i && i.pid !in prev)
    && (forall i :: i in d.updated <==> i.pid in cur && cur[i.pid] == i && i.pid in prev && ProcessChanged(prev[i.pid], i))
    && (forall p :: p in d.removed <==> p in prev && p !in cur)
  }

  method DiffTables(prev: Table, cur: Table) returns (d: Diff)
    requires Keyed(cur)
    ensures IsDiff(d, prev, cur)
  {
    var added: seq<Info>, updated: seq<Info>, removed: seq<Pid> := [], [], [];
    var todo := cur.Keys;
    while todo != {}
      invariant todo <= cur.Keys
      invariant forall i :: i in added <==> i.pid in cur && i.pid !in todo && cur[i.pid] == i && i.pid !in prev
      invariant forall i :: i in updated <==>
                  i.pid in cur && i.pid !in todo && cur[i.pid] == i && i.pid in prev && ProcessChanged(prev[i.pid], i)
      decreases |todo|
    {
      var p :| p in todo;
      todo := todo - {p};
      var info := cur[p];
      if p !in prev {
        added := added + [info];
      } else if ProcessChanged(prev[p], info) {
        updated := updated + [info];
      }
    }
    todo := prev.Keys;
    while todo != {}
      invariant todo <= prev.Keys
      invariant forall p :: p in removed <==> p in prev && p !in todo && p !in cur
      decreases |todo|
    {
      var p :| p in todo;
      todo := todo - {p};
      if p !in cur {
        removed := removed + [p];
      }
    }
    d := Diff(added, updated, removed);
  }

  // ----- the GUI's side -----

  function Put(t: Table, infos: seq<Info>): Table
    decreases infos
  {
    if infos == [] then t else Put(t[infos[0].pid := infos[0]], infos[1..])
  }

  function Index(infos: seq<Info>): Table { Put(map[], infos) }

  function Listed(t: Table, pids: seq<Pid>): seq<Info>
    requires forall p | p in pids :: p in t
    decreases pids
  {
    if pids == [] then [] else [t[pids[0]]] + Listed(t, pids[1..])
  }

  /** The table as a list sorted by pid. */
  function Sorted(t: Table): seq<Info> { Listed(t, Ascending(t.Keys)) }

  function ApplyDiff(t: Table, d: Diff): Table {
    Put(Put(t - (set p | p in d.removed), d.added), d.updated)
  }

  /** The store behind the process view. */
  class Store {
    var processes: seq<Info>

    method OnSnapshot(infos: seq<Info>)
      modifies this
      ensures processes == infos
    {
      processes := infos;
    }

    method OnDiff(d: Diff)
      modifies this
      ensures processes == Sorted(ApplyDiff(Index(old(processes)), d))
    {
      var t: Table := Index(processes);
      ghost var was := t;
      for i := 0 to |d.removed|
        invariant t == was - (set p | p in d.removed[..i])
      {
        t := t - {d.removed[i]};
        assert d.removed[..i + 1] == d.removed[..i] + [d.removed[i]];
      }
      assert d.removed[..|d.removed|] == d.removed;
      ghost var kept: Table := t;
      for i := 0 to |d.added|
        invariant Put(t, d.added[i..]) == Put(kept, d.added)
      {
        assert d.added[i..][0] == d.added[i] && d.added[i..][1..] == d.added[i + 1..];
        t := t[d.added[i].pid := d.added[i]];
      }
      ghost var more: Table := t;
      for i := 0 to |d.updated|
        invariant Put(t, d.updated[i..]) == Put(more, d.updated)
      {
        assert d.updated[i..][0] == d.updated[i] && d.updated[i..][1..] == d.updated[i + 1..];
        t := t[d.updated[i].pid := d.updated[i]];
      }
      processes := Sorted(t);
    }
  }

  // ----- what the list operations mean -----

  /** Two entries of the list never share a pid. */
  ghost predicate OnePerPid(infos: seq<Info>) {
    forall i, j | i in infos && j in infos && i.pid == j.pid :: i == j
  }

  lemma {:induction false} PutMisses(t: Table, infos: seq<Info>, p: Pid)
    requires forall i | i in infos :: i.pid != p
    ensures p in Put(t, infos) <==> p in t
    ensures p in t ==> Put(t, infos)[p] == t[p]
    decreases infos
  {
    if infos != [] {
      assert infos == [infos[0]] + infos[1..];
      PutMisses(t[infos[0].pid := infos[0]], infos[1..], p);
    }
  }

  lemma {:induction false} PutHits(t: Table, infos: seq<Info>, i: Info)
    requires i in infos && OnePerPid(infos)
    ensures i.pid in Put(t, infos) && Put(t, infos)[i.pid] == i
    decreases infos
  {
    assert infos == [infos[0]] + infos[1..];
    var t1 := t[infos[0].pid := infos[0]];
    if i in infos[1..] {
      PutHits(t1, infos[1..], i);
    } else {
      PutMisses(t1, infos[1..], i.pid);
    }
  }

  lemma {:induction false} ListedMeaning(t: Table, pids: seq<Pid>)
    requires Keyed(t) && forall p | p in pids :: p in t
    ensures |Listed(t, pids)| == |pids| && forall k | 0 <= k < |pids| :: Listed(t, pids)[k] == t[pids[k]]
    decreases pids
  {
    if pids != [] {
      ListedMeaning(t, pids[1..]);
    }
  }

  /** The pids go up strictly: sorted, no duplicates. */
  ghost predicate SortedByPid(infos: seq<Info>) {
    forall i, j | 0 <= i < j < |infos| :: infos[i].pid < infos[j].pid
  }

  lemma SortedIsListed(t: Table)
    requires Keyed(t)
    ensures |Sorted(t)| == |Ascending(t.Keys)|
    ensures forall k | 0 <= k < |Sorted(t)| :: Sorted(t)[k] == t[Ascending(t.Keys)[k]] && Sorted(t)[k].pid == Ascending(t.Keys)[k]
    ensures SortedByPid(Sorted(t))
  {
    var pids := Ascending(t.Keys);
    ListedMeaning(t, pids);
    assert forall k | 0 <= k < |pids| :: pids[k] in pids;
  }

  lemma SortedHolds(t: Table)
    requires Keyed(t)
    ensures SortedByPid(Sorted(t))
    ensures forall i :: i in Sorted(t) <==> i.pid in t && t[i.pid] == i
  {
    var pids := Ascending(t.Keys);
    SortedIsListed(t);
    var infos := Sorted(t);
    forall i | i in infos
      ensures i.pid in t && t[i.pid] == i
    {
      var k :| 0 <= k < |infos| && infos[k] == i;
      assert pids[k] in pids;
    }
    forall p | p in t
      ensures t[p] in infos
    {
      assert p in pids;
      var k :| 0 <= k < |pids| && pids[k] == p;
      assert infos[k] == t[p];
    }
  }

  lemma IndexAt(t: Table, infos: seq<Info>, p: Pid)
    requires Keyed(t) && forall i :: i in infos <==> i.pid in t && t[i.pid] == i
    ensures p in Index(infos) <==> p in t
    ensures p in t ==> Index(infos)[p] == t[p]
  {
    if p in t {
      PutHits(map[], infos, t[p]);
    } else {
      PutMisses(map[], infos, p);
    }
  }

  /** A sorted list loses nothing of the table. */
  lemma SortedMeaning(t: Table)
    requires Keyed(t)
    ensures SortedByPid(Sorted(t)) && Index(Sorted(t)) == t
  {
    SortedHolds(t);
    forall p: Pid
      ensures p in Index(Sorted(t)) <==> p in t
      ensures p in t ==> Index(Sorted(t))[p] == t[p]
    {
      IndexAt(t, Sorted(t), p);
    }
    assert Index(Sorted(t)).Keys == t.Keys;
  }

  lemma DiffAt(t: Table, d: Diff, prev: Table, cur: Table, p: Pid)
    requires IsDiff(d, prev, cur) && Keyed(cur) && t.Keys == prev.Keys
    ensures var t' := ApplyDiff(t, d);
      && (p in t' <==> p in cur)
      && (p in cur ==> t'[p] == if p in prev && !ProcessChanged(prev[p], cur[p]) then t[p] else cur[p])
  {
    var kept := t - (set q | q in d.removed);
    var more := Put(kept, d.added);
    if p in cur && p !in prev {
      PutHits(kept, d.added, cur[p]);
      PutMisses(more, d.updated, p);
    } else if p in cur && ProcessChanged(prev[p], cur[p]) {
      PutHits(more, d.updated, cur[p]);
    } else {
      PutMisses(kept, d.added, p);
      PutMisses(more, d.updated, p);
    }
  }

  /** Applying the difference to a copy: the pids become the new ones; shipped entries are exact, the others stay. */
  lemma DiffMeaning(t: Table, d: Diff, prev: Table, cur: Table)
    requires IsDiff(d, prev, cur) && Keyed(t) && Keyed(cur) && t.Keys == prev.Keys
    ensures var t' := ApplyDiff(t, d);
      && Keyed(t') && t'.Keys == cur.Keys
      && forall p | p in cur ::
           t'[p] == if p in prev && !ProcessChanged(prev[p], cur[p]) then t[p] else cur[p]
  {
    forall p: Pid
      ensures p in ApplyDiff(t, d) <==> p in cur
      ensures p in cur ==> ApplyDiff(t, d)[p] == if p in prev && !ProcessChanged(prev[p], cur[p]) then t[p] else cur[p]
    {
      DiffAt(t, d, prev, cur, p);
    }
  }
}
