/** What repeated sweeps achieve, with managed dirs nested in any way: exactly when `n` of them clear everything that
    can be cleared, whatever the order in which each visits the created dirs. */
module Clearing {
  import opened Wrappers
  import opened Cgroupfs
  import opened Enrolment
  import opened Sweeping

  /** The base exists, parking is not refused, the strays dir is the daemon's own, and no managed dir is the base or
      lies above it. */
  ghost predicate Sound(w: World, critical: set<Pid>) {
    && w.base.Some?
    && var stray := StrayDir(w.base.value);
    && (forall d, c | d in w.k.dirs && c <= d :: c in w.k.dirs)
    && w.base.value in w.k.dirs
    && stray !in w.created && stray !in w.k.deny.mkdirs
    && (forall p | p in w.k.at && p !in w.enrolled && p !in critical :: (p, stray) !in w.k.deny.moves)
    && forall d | d in w.created :: !(d <= w.base.value)
  }

  /** A dir the daemon looks after: created by it, or named like one. */
  ghost predicate Managed(w: World, d: Dir) {
    w.base.Some? && d in w.k.dirs && (d in w.created || IsNwChild(w.base.value, d))
  }

  /** A managed dir with no enrolled and no critical process: nothing but other dirs keeps it from being removed. */
  ghost predicate Vacant(w: World, critical: set<Pid>, d: Dir) {
    Managed(w, d) && Strays(w, critical, d) == Procs(w.k, d)
  }

  ghost predicate IsLeaf(w: World, d: Dir) { forall e | e in w.k.dirs :: !(d < e) }

  ghost predicate AllAdopted(w: World) {
    w.base.Some? && forall d | d in w.k.dirs && IsNwChild(w.base.value, d) :: d in w.created
  }

  // ----- visiting one dir -----

  lemma NotAboveStray(b: Dir, d: Dir)
    requires !(d <= b)
    ensures !(d < StrayDir(b))
  {
  }

  lemma ManagedIsProper(w: World, critical: set<Pid>, d: Dir)
    requires Sound(w, critical) && Managed(w, d)
    ensures !(d <= w.base.value) && !(d < StrayDir(w.base.value)) && d != StrayDir(w.base.value)
  {
    StrayIsNotNw(w.base.value);
    NotAboveStray(w.base.value, d);
  }

  lemma MkdirStray(w: World, critical: set<Pid>)
    requires Sound(w, critical)
    ensures MkdirAll(w.k, StrayDir(w.base.value)).dirs == w.k.dirs + {StrayDir(w.base.value)}
  {
    var b := w.base.value;
    var stray := StrayDir(b);
    if stray !in w.k.dirs {
      forall i | 0 <= i <= |stray|
        ensures stray[..i] in w.k.dirs + {stray}
      {
        if i <= |b| {
          assert stray[..i] == b[..i] <= b;
        } else {
          assert stray[..i] == stray;
        }
      }
      assert stray == stray[..|stray|];
    }
  }

  lemma StrayClosed(w: World, critical: set<Pid>, dirs: set<Dir>)
    requires Sound(w, critical) && dirs == w.k.dirs + {StrayDir(w.base.value)}
    ensures forall d, c | d in dirs && c <= d :: c in dirs
  {
    var b := w.base.value;
    forall c: Dir | c <= StrayDir(b)
      ensures c in dirs
    {
      if |c| <= |b| {
        assert c == StrayDir(b)[..|c|] == b[..|c|];
      } else {
        assert c == StrayDir(b);
      }
    }
  }

  lemma MoveMeaning(w: World, critical: set<Pid>, d: Dir)
    requires Sound(w, critical) && Managed(w, d)
    ensures var w' := MoveStrays(w, critical, d); var stray := StrayDir(w.base.value);
      && Sound(w', critical) && w'.created == w.created
      && w.k.dirs <= w'.k.dirs <= w.k.dirs + {stray}
      && Procs(w'.k, d) == Procs(w.k, d) - Strays(w, critical, d)
      && forall c | c != d && c != stray :: Procs(w'.k, c) == Procs(w.k, c)
  {
    ManagedIsProper(w, critical, d);
    if Strays(w, critical, d) != {} {
      MkdirStray(w, critical);
      StrayClosed(w, critical, MkdirAll(w.k, StrayDir(w.base.value)).dirs);
    }
  }

  lemma PruneMeaning(w: World, critical: set<Pid>, d: Dir)
    requires Sound(w, critical) && !(d <= w.base.value)
    ensures var w' := Prune(w, d);
      && Sound(w', critical) && !Removable(w'.k, d)
      && w'.k.dirs == (if Removable(w.k, d) then w.k.dirs - {d} else w.k.dirs)
      && w'.created == (if Removable(w.k, d) then w.created - {d} else w.created)
      && w'.k.at == w.k.at
  {
    if Removable(w.k, d) {
      var w' := Prune(w, d);
      forall e, c | e in w'.k.dirs && c <= e
        ensures c in w'.k.dirs
      {
        assert c == e || c < e;
      }
    }
  }

  lemma StrayIsBelow(b: Dir)
    ensures !(StrayDir(b) <= b)
  {
  }

  lemma NothingLeftIff(all: set<Pid>, some: set<Pid>)
    requires some <= all
    ensures all - some == {} <==> some == all
  {
    if p :| p in all && p !in some {
      assert p in all - some;
    }
  }

  lemma RemovableIff(w: World, w1: World, critical: set<Pid>, d: Dir)
    requires Managed(w, d) && Procs(w1.k, d) == Procs(w.k, d) - Strays(w, critical, d)
    requires w.k.dirs <= w1.k.dirs <= w.k.dirs + {StrayDir(w.base.value)} && !(d < StrayDir(w.base.value))
    ensures Removable(w1.k, d) <==> Vacant(w, critical, d) && IsLeaf(w, d)
  {
    NothingLeftIff(Procs(w.k, d), Strays(w, critical, d));
    assert (forall c | c in w1.k.dirs :: !(d < c)) <==> IsLeaf(w, d);
  }

  /** A visit removes a vacant leaf and nothing else, empties the dir of strays, and leaves no empty strays dir. */
  lemma VisitMeaning(w: World, critical: set<Pid>, d: Dir)
    requires Sound(w, critical) && d in w.created && d in w.k.dirs
    ensures var w' := SweepDir(w, critical, d); var stray := StrayDir(w.base.value);
      var goes := Vacant(w, critical, d) && IsLeaf(w, d);
      && Sound(w', critical)
      && (forall c | c != stray :: c in w'.k.dirs <==> c in w.k.dirs && !(c == d && goes))
      && w'.created == (if goes then w.created - {d} else w.created)
      && !Removable(w'.k, stray)
      && Procs(w'.k, d) == Procs(w.k, d) - Strays(w, critical, d)
      && forall c | c != d && c != stray :: Procs(w'.k, c) == Procs(w.k, c)
  {
    var stray := StrayDir(w.base.value);
    var w1 := MoveStrays(w, critical, d);
    ManagedIsProper(w, critical, d);
    MoveMeaning(w, critical, d);
    RemovableIff(w, w1, critical, d);
    PruneMeaning(w1, critical, d);
    StrayIsBelow(w.base.value);
    PruneMeaning(Prune(w1, d), critical, stray);
  }

  // ----- a series of visits -----

  /** What any series of visits that includes those to `seen` has done: only vacant dirs have gone, the vacant leaves
      among `seen` have, and no stray is left in what remains of `seen`. */
  ghost predicate Swept(w: World, w': World, critical: set<Pid>, seen: set<Dir>) {
    && w.base.Some? && w'.base == w.base && w'.enrolled == w.enrolled
    && var stray := StrayDir(w.base.value);
    && (forall c | c in w'.k.dirs && c != stray :: c in w.k.dirs)
    && (forall c | c in w.k.dirs && c !in w'.k.dirs && c != stray :: Vacant(w, critical, c))
    && (forall c | c in w'.k.dirs && c != stray :: Managed(w', c) <==> Managed(w, c))
    && (forall c | Managed(w', c) :: Vacant(w', critical, c) <==> Vacant(w, critical, c))
    && (forall c | Managed(w', c) :: Strays(w', critical, c) <= Strays(w, critical, c))
    && (forall c | Managed(w', c) && c in seen :: Strays(w', critical, c) == {})
    && (forall c | c in seen && Vacant(w, critical, c) && IsLeaf(w, c) :: c !in w'.k.dirs)
  }

  lemma SweptNothing(w: World, critical: set<Pid>, seen: set<Dir>)
    requires Sound(w, critical) && forall c | c in seen :: c !in w.k.dirs
    ensures Swept(w, w, critical, seen)
  {
  }

  lemma VisitStrays(w: World, critical: set<Pid>, d: Dir, c: Dir)
    requires Sound(w, critical) && d in w.created && d in w.k.dirs && c != StrayDir(w.base.value)
    ensures var w' := SweepDir(w, critical, d);
      && w'.base == w.base && w'.enrolled == w.enrolled
      && Strays(w', critical, c) == (if c == d then {} else Strays(w, critical, c))
      && (Strays(w', critical, c) == Procs(w'.k, c) <==> Strays(w, critical, c) == Procs(w.k, c))
  {
    VisitMeaning(w, critical, d);
    SweepDirSpares(w, critical, d);
    var w' := SweepDir(w, critical, d);
    NothingLeftIff(Procs(w.k, c), Strays(w, critical, c));
  }

  lemma SweptOne(w: World, critical: set<Pid>, d: Dir)
    requires Sound(w, critical) && d in w.created
    ensures Sound(SweepDir(w, critical, d), critical) && Swept(w, SweepDir(w, critical, d), critical, {d})
  {
    if d in w.k.dirs {
      var w' := SweepDir(w, critical, d);
      var stray := StrayDir(w.base.value);
      VisitMeaning(w, critical, d);
      StrayIsNotNw(w.base.value);
      forall c | c != stray
        ensures w'.base == w.base && w'.enrolled == w.enrolled
        ensures Strays(w', critical, c) == if c == d then {} else Strays(w, critical, c)
        ensures Strays(w', critical, c) == Procs(w'.k, c) <==> Strays(w, critical, c) == Procs(w.k, c)
      {
        VisitStrays(w, critical, d, c);
      }
    } else {
      SweptNothing(w, critical, {d});
    }
  }

  lemma LeafStays(w: World, w1: World, critical: set<Pid>, seen: set<Dir>, c: Dir)
    requires Sound(w, critical) && Swept(w, w1, critical, seen) && Vacant(w, critical, c) && IsLeaf(w, c) && c in w1.k.dirs
    ensures Vacant(w1, critical, c) && IsLeaf(w1, c)
  {
    ManagedIsProper(w, critical, c);
  }

  lemma SweptTwice(w: World, w1: World, w2: World, critical: set<Pid>, s: set<Dir>, t: set<Dir>)
    requires Sound(w, critical) && Swept(w, w1, critical, s) && Swept(w1, w2, critical, t)
    requires Sound(w1, critical) && Sound(w2, critical)
    ensures Swept(w, w2, critical, s + t)
  {
    var stray := StrayDir(w.base.value);
    forall c | Managed(w2, c)
      ensures c != stray && Managed(w1, c) && Managed(w, c)
    {
      ManagedIsProper(w2, critical, c);
    }
    forall c | c in t && Vacant(w, critical, c) && IsLeaf(w, c)
      ensures c !in w2.k.dirs
    {
      ManagedIsProper(w, critical, c);
      if c in w1.k.dirs {
        LeafStays(w, w1, critical, s, c);
      }
    }
    forall c | c in s && Vacant(w, critical, c) && IsLeaf(w, c)
      ensures c !in w2.k.dirs
    {
      ManagedIsProper(w, critical, c);
    }
  }

  lemma {:induction false} SweptDirs(w: World, critical: set<Pid>, order: seq<Dir>)
    requires Sound(w, critical) && forall d | d in order :: d in w.created || d !in w.k.dirs
    requires StrayDir(w.base.value) !in order
    ensures var w' := SweepDirs(w, critical, order);
      Sound(w', critical) && Swept(w, w', critical, set d | d in order)
    decreases order
  {
    if order == [] {
      SweptNothing(w, critical, set d | d in order);
    } else {
      var d, rest := order[0], order[1..];
      assert order == [d] + rest;
      var w1 := SweepDir(w, critical, d);
      if d in w.created {
        SweptOne(w, critical, d);
      } else {
        SweptNothing(w, critical, {d});
      }
      forall c | c in rest
        ensures c in w1.created || c !in w1.k.dirs
      {
        StillKnown(w, critical, d, c);
      }
      SweptDirs(w1, critical, rest);
      SweptTwice(w, w1, SweepDirs(w1, critical, rest), critical, {d}, set c | c in rest);
      assert (set c | c in order) == {d} + set c | c in rest;
    }
  }

  lemma StillKnown(w: World, critical: set<Pid>, d: Dir, c: Dir)
    requires Sound(w, critical) && (d in w.created || d !in w.k.dirs) && c != StrayDir(w.base.value)
    requires c in w.created || c !in w.k.dirs
    ensures var w' := SweepDir(w, critical, d); c in w'.created || c !in w'.k.dirs
  {
    if d in w.k.dirs {
      VisitMeaning(w, critical, d);
    }
  }

  /** If a visited dir still exists, the strays dir does not stand empty. */
  lemma {:induction false} NoEmptyStrays(w: World, critical: set<Pid>, order: seq<Dir>)
    requires Sound(w, critical) && forall d | d in order :: d in w.created || d !in w.k.dirs
    requires StrayDir(w.base.value) !in order
    requires !Removable(w.k, StrayDir(w.base.value)) || exists d | d in order :: d in SweepDirs(w, critical, order).k.dirs
    ensures !Removable(SweepDirs(w, critical, order).k, StrayDir(w.base.value))
    decreases order
  {
    if order != [] {
      var d, rest := order[0], order[1..];
      assert order == [d] + rest;
      var w1 := SweepDir(w, critical, d);
      if d in w.k.dirs {
        VisitMeaning(w, critical, d);
      }
      forall c | c in rest
        ensures c in w1.created || c !in w1.k.dirs
      {
        StillKnown(w, critical, d, c);
      }
      if d !in w.k.dirs && d in SweepDirs(w, critical, order).k.dirs {
        SweptDirs(w, critical, order);
        assert false;
      }
      NoEmptyStrays(w1, critical, rest);
    }
  }

  // ----- a whole sweep -----

  lemma AdoptionSweeps(w: World, critical: set<Pid>)
    requires Sound(w, critical)
    ensures var w' := AdoptDirs(w, Unadopted(w));
      Sound(w', critical) && AllAdopted(w') && Swept(w, w', critical, {})
  {
    var w' := AdoptDirs(w, Unadopted(w));
    StrayIsNotNw(w.base.value);
    forall d, c | d in w'.k.dirs && c <= d
      ensures c in w'.k.dirs
    {
      assert c == d || c < d;
    }
  }

  /** One sweep, seen from its start: the vacant leaves the daemon created are gone, and nothing that is not vacant. */
  lemma OneSweep(w: World, critical: set<Pid>, order: seq<Dir>)
    requires Sound(w, critical) && Enumerates(order, w.created)
    ensures var w' := Sweep(w, critical, order);
      Sound(w', critical) && AllAdopted(w') && Swept(w, w', critical, w.created)
  {
    SweptDirs(w, critical, order);
    assert (set d | d in order) == w.created;
    var w1 := SweepDirs(w, critical, order);
    AdoptionSweeps(w1, critical);
    SweptTwice(w, w1, Sweep(w, critical, order), critical, w.created, {});
    assert w.created + {} == w.created;
  }

  // ----- depth -----

  /** Vacant dirs, each inside the one before. */
  ghost predicate Chain(w: World, critical: set<Pid>, c: seq<Dir>) {
    (forall i | 0 <= i < |c| :: Vacant(w, critical, c[i])) && forall i, j | 0 <= i < j < |c| :: c[i] < c[j]
  }

  ghost predicate NoChain(w: World, critical: set<Pid>, n: nat) {
    forall c: seq<Dir> | Chain(w, critical, c) :: |c| < n
  }

  /** Below a vacant dir there are only vacant dirs: nothing inside it is there to stay. */
  ghost predicate Unblocked(w: World, critical: set<Pid>) {
    forall x, e | Vacant(w, critical, x) && e in w.k.dirs && x < e :: Vacant(w, critical, e)
  }

  lemma WasVacant(w: World, w': World, critical: set<Pid>, seen: set<Dir>, x: Dir)
    requires Swept(w, w', critical, seen) && Sound(w', critical) && Vacant(w', critical, x)
    ensures Vacant(w, critical, x)
  {
    ManagedIsProper(w', critical, x);
  }

  /** A vacant dir stays vacant for as long as it exists. */
  lemma StaysVacant(w: World, w': World, critical: set<Pid>, seen: set<Dir>, x: Dir)
    requires Sound(w, critical) && Swept(w, w', critical, seen) && Vacant(w, critical, x) && x in w'.k.dirs
    ensures Vacant(w', critical, x)
  {
    ManagedIsProper(w, critical, x);
  }

  lemma SweepUnblocks(w: World, w': World, critical: set<Pid>, seen: set<Dir>)
    requires Sound(w, critical) && Sound(w', critical) && Swept(w, w', critical, seen) && Unblocked(w, critical)
    ensures Unblocked(w', critical)
  {
    forall x, e | Vacant(w', critical, x) && e in w'.k.dirs && x < e
      ensures Vacant(w', critical, e)
    {
      WasVacant(w, w', critical, seen, x);
      ManagedIsProper(w, critical, x);
      StaysVacant(w, w', critical, seen, e);
    }
  }

  /** The innermost dir of a chain left by a sweep had something below it. */
  lemma ChainWasLonger(w: World, w': World, critical: set<Pid>, c: seq<Dir>) returns (longer: seq<Dir>)
    requires Sound(w, critical) && Sound(w', critical) && Swept(w, w', critical, w.created) && Unblocked(w, critical)
    requires Chain(w', critical, c) && c != [] && (|c| >= 2 || AllAdopted(w))
    ensures Chain(w, critical, longer) && |longer| == |c| + 1
  {
    var last := c[|c| - 1];
    forall i | 0 <= i < |c|
      ensures Vacant(w, critical, c[i])
    {
      WasVacant(w, w', critical, w.created, c[i]);
    }
    if |c| >= 2 {
      ManagedIsProper(w, critical, c[0]);
      assert c[0] < last;
      NotBelowManaged(w, critical, c[0], last);
    }
    assert last in w.created;
    assert !IsLeaf(w, last);
    var e :| e in w.k.dirs && last < e;
    longer := c + [e];
    forall i, j | 0 <= i < j < |longer|
      ensures longer[i] < longer[j]
    {
      if j == |c| && i < |c| - 1 {
        assert c[i] < last < e;
      }
    }
  }

  lemma NotBelowManaged(w: World, critical: set<Pid>, x: Dir, d: Dir)
    requires Sound(w, critical) && Managed(w, x) && Managed(w, d) && x < d
    ensures d in w.created
  {
    ManagedIsProper(w, critical, x);
    if IsNwChild(w.base.value, d) {
      AboveNwChild(w.base.value, x, d);
    }
  }

  lemma AboveNwChild(b: Dir, x: Dir, d: Dir)
    requires IsNwChild(b, d) && x < d
    ensures x <= b
  {
    assert x <= d[..|b|];
  }

  lemma SweepShortens(w: World, critical: set<Pid>, order: seq<Dir>, n: nat)
    requires Sound(w, critical) && Enumerates(order, w.created) && Unblocked(w, critical) && NoChain(w, critical, n + 1)
    requires n >= 2 || (n == 1 && AllAdopted(w))
    ensures var w' := Sweep(w, critical, order);
      Sound(w', critical) && AllAdopted(w') && Unblocked(w', critical) && NoChain(w', critical, n)
  {
    OneSweep(w, critical, order);
    var w' := Sweep(w, critical, order);
    SweepUnblocks(w, w', critical, w.created);
    forall c: seq<Dir> | Chain(w', critical, c)
      ensures |c| < n
    {
      if |c| >= n {
        var longer := ChainWasLonger(w, w', critical, c);
        assert false;
      }
    }
  }

  // ----- series of sweeps -----

  function Sweeps(w: World, critical: set<Pid>, orders: seq<seq<Dir>>): World
    decreases orders
  {
    if orders == [] then w else Sweeps(Sweep(w, critical, orders[0]), critical, orders[1..])
  }

  /** Each sweep visits the dirs created by then, in some order. */
  ghost predicate Proper(w: World, critical: set<Pid>, orders: seq<seq<Dir>>)
    decreases orders
  {
    orders != [] ==> Enumerates(orders[0], w.created) && Proper(Sweep(w, critical, orders[0]), critical, orders[1..])
  }

  /** Every managed dir holds processes, all of them enrolled or critical. */
  ghost predicate Cleared(w: World, critical: set<Pid>) {
    forall d | Managed(w, d) :: Procs(w.k, d) != {} && forall p | p in Procs(w.k, d) :: p in w.enrolled || p in critical
  }

  /** And no further sweep changes anything. */
  ghost predicate Finished(w: World, critical: set<Pid>) {
    Cleared(w, critical) && forall order | Enumerates(order, w.created) :: Sweep(w, critical, order) == w
  }

  lemma {:induction false} NothingToVisit(w: World, critical: set<Pid>, order: seq<Dir>)
    requires w.base.Some? && (forall d | d in order :: SweepDir(w, critical, d) == w)
    ensures SweepDirs(w, critical, order) == w
    decreases order
  {
    if order != [] {
      assert order[0] in order;
      NothingToVisit(w, critical, order[1..]);
    }
  }

  lemma AtRest(w: World, critical: set<Pid>)
    requires Sound(w, critical) && AllAdopted(w) && Cleared(w, critical)
    requires (exists d | d in w.created :: d in w.k.dirs) ==> !Removable(w.k, StrayDir(w.base.value))
    ensures Finished(w, critical)
  {
    forall order | Enumerates(order, w.created)
      ensures Sweep(w, critical, order) == w
    {
      forall d | d in order
        ensures SweepDir(w, critical, d) == w
      {
        if d in w.k.dirs {
          assert Managed(w, d);
          assert Strays(w, critical, d) == {};
        }
      }
      NothingToVisit(w, critical, order);
      assert Unadopted(w) == {};
      AdoptNothing(w);
    }
  }

  lemma ClearedAtLast(w: World, critical: set<Pid>, order: seq<Dir>)
    requires Sound(w, critical) && AllAdopted(w) && Enumerates(order, w.created)
    requires NoChain(Sweep(w, critical, order), critical, 1)
    ensures Cleared(Sweep(w, critical, order), critical)
  {
    var w' := Sweep(w, critical, order);
    OneSweep(w, critical, order);
    forall d | Managed(w', d)
      ensures Procs(w'.k, d) != {} && forall p | p in Procs(w'.k, d) :: p in w'.enrolled || p in critical
    {
      ManagedIsProper(w', critical, d);
      assert d in w.created;
      assert Strays(w', critical, d) == {};
      assert !Vacant(w', critical, d) by { assert !Chain(w', critical, [d]); }
      assert forall p | p in Procs(w'.k, d) && p !in w'.enrolled && p !in critical :: p in Strays(w', critical, d);
    }
  }

  lemma AdoptedAlready(w: World, critical: set<Pid>, order: seq<Dir>)
    requires Sound(w, critical) && AllAdopted(w) && Enumerates(order, w.created)
    ensures Sweep(w, critical, order) == SweepDirs(w, critical, order)
  {
    SweptDirs(w, critical, order);
    StrayIsNotNw(w.base.value);
    var w1 := SweepDirs(w, critical, order);
    forall d | d in w1.k.dirs && IsNwChild(w.base.value, d)
      ensures d in w1.created
    {
      KnownAfter(w, critical, order, d);
    }
    assert Unadopted(w1) == {};
    AdoptNothing(w1);
  }

  /** The last sweep of a series long enough. */
  lemma LastSweep(w: World, critical: set<Pid>, order: seq<Dir>)
    requires Sound(w, critical) && AllAdopted(w) && Enumerates(order, w.created)
    requires Unblocked(w, critical) && NoChain(w, critical, 2)
    ensures Finished(Sweep(w, critical, order), critical)
  {
    var w' := Sweep(w, critical, order);
    OneSweep(w, critical, order);
    SweepShortens(w, critical, order, 1);
    ClearedAtLast(w, critical, order);
    AdoptedAlready(w, critical, order);
    if d :| d in w'.created && d in w'.k.dirs {
      ManagedIsProper(w', critical, d);
      assert d in order;
      NoEmptyStrays(w, critical, order);
    }
    AtRest(w', critical);
  }

  lemma {:induction false} SweepsClear(w: World, critical: set<Pid>, orders: seq<seq<Dir>>)
    requires Sound(w, critical) && Proper(w, critical, orders)
    requires Unblocked(w, critical) && NoChain(w, critical, |orders| + 1)
    requires |orders| >= 2 || (|orders| == 1 && AllAdopted(w))
    ensures Finished(Sweeps(w, critical, orders), critical)
    decreases orders
  {
    var w1 := Sweep(w, critical, orders[0]);
    if |orders| == 1 {
      LastSweep(w, critical, orders[0]);
      assert Sweeps(w1, critical, orders[1..]) == w1;
    } else {
      SweepShortens(w, critical, orders[0], |orders|);
      SweepsClear(w1, critical, orders[1..]);
    }
  }

  // ----- what no number of sweeps clears -----

  /** A vacant dir around one that is there to stay is never removed, by any number of sweeps in any orders. */
  lemma {:induction false} BlockedForEver(w: World, critical: set<Pid>, orders: seq<seq<Dir>>, x: Dir, e: Dir)
    requires Sound(w, critical) && Proper(w, critical, orders)
    requires Vacant(w, critical, x) && e in w.k.dirs && x < e && !Vacant(w, critical, e)
    ensures Vacant(Sweeps(w, critical, orders), critical, x)
    decreases orders
  {
    if orders != [] {
      var w1 := Sweep(w, critical, orders[0]);
      OneSweep(w, critical, orders[0]);
      ManagedIsProper(w, critical, x);
      assert e in w1.k.dirs && x in w1.k.dirs;
      StaysVacant(w, w1, critical, w.created, x);
      if Vacant(w1, critical, e) {
        WasVacant(w, w1, critical, w.created, e);
        assert false;
      }
      BlockedForEver(w1, critical, orders[1..], x, e);
    }
  }

  // ----- visiting outer dirs first -----

  lemma {:induction false} SweepDirsConcat(w: World, critical: set<Pid>, xs: seq<Dir>, ys: seq<Dir>)
    requires w.base.Some?
    ensures SweepDirs(w, critical, xs + ys) == SweepDirs(SweepDirs(w, critical, xs), critical, ys)
    decreases xs
  {
    if xs == [] {
      assert xs + ys == ys;
    } else {
      assert (xs + ys)[0] == xs[0] && (xs + ys)[1..] == xs[1..] + ys;
      SweepDirsConcat(SweepDir(w, critical, xs[0]), critical, xs[1..], ys);
    }
  }

  /** The dirs of a chain visited from the outside in: each still has the next inside it. */
  lemma {:induction false} OutsideIn(w: World, critical: set<Pid>, c: seq<Dir>, i: nat)
    requires Sound(w, critical) && Chain(w, critical, c) && i <= |c| && forall j | i <= j < |c| :: c[j] in w.created
    requires c != []
    ensures var w' := SweepDirs(w, critical, c[i..]);
      Sound(w', critical) && Chain(w', critical, c[..|c| - 1])
    decreases |c| - i
  {
    if i < |c| {
      var w1 := SweepDir(w, critical, c[i]);
      assert c[i..][0] == c[i] && c[i..][1..] == c[i + 1..];
      SweptOne(w, critical, c[i]);
      VisitMeaning(w, critical, c[i]);
      forall j | 0 <= j < |c| && (j != i || i < |c| - 1)
        ensures Vacant(w1, critical, c[j])
      {
        ManagedIsProper(w, critical, c[j]);
        assert i < |c| - 1 ==> c[i] < c[i + 1];
        StaysVacant(w, w1, critical, {c[i]}, c[j]);
      }
      if i < |c| - 1 {
        OutsideIn(w1, critical, c, i + 1);
      } else {
        assert c[i + 1..] == [];
      }
    }
  }

  lemma {:induction false} KnownAfter(w: World, critical: set<Pid>, order: seq<Dir>, c: Dir)
    requires Sound(w, critical) && (forall d | d in order :: d in w.created || d !in w.k.dirs)
    requires StrayDir(w.base.value) !in order && c != StrayDir(w.base.value) && (c in w.created || c !in w.k.dirs)
    ensures var w' := SweepDirs(w, critical, order); c in w'.created || c !in w'.k.dirs
    decreases order
  {
    if order != [] {
      assert order == [order[0]] + order[1..];
      forall d | d in [c] + order[1..]
        ensures var w1 := SweepDir(w, critical, order[0]); d in w1.created || d !in w1.k.dirs
      {
        StillKnown(w, critical, order[0], d);
      }
      if order[0] in w.created {
        SweptOne(w, critical, order[0]);
      }
      KnownAfter(SweepDir(w, critical, order[0]), critical, order[1..], c);
    }
  }

  /** A dir that is not visited is not removed. */
  lemma {:induction false} UnvisitedStays(w: World, critical: set<Pid>, order: seq<Dir>, c: Dir)
    requires Sound(w, critical) && (forall d | d in order :: d in w.created || d !in w.k.dirs)
    requires StrayDir(w.base.value) !in order && c != StrayDir(w.base.value) && c in w.k.dirs && c !in order
    ensures c in SweepDirs(w, critical, order).k.dirs
    decreases order
  {
    if order != [] {
      var d := order[0];
      assert order == [d] + order[1..];
      forall e | e in order[1..]
        ensures var w1 := SweepDir(w, critical, d); e in w1.created || e !in w1.k.dirs
      {
        StillKnown(w, critical, d, e);
      }
      if d in w.k.dirs {
        VisitMeaning(w, critical, d);
      }
      UnvisitedStays(SweepDir(w, critical, d), critical, order[1..], c);
    }
  }

  lemma FirstThenRest(created: set<Dir>, first: seq<Dir>, rest: seq<Dir>)
    requires (forall d | d in first :: d in created) && forall i, j | 0 <= i < j < |first| :: first[i] != first[j]
    requires Enumerates(rest, created - set d | d in first)
    ensures Enumerates(first + rest, created)
  {
    forall i, j | 0 <= i < |first| && 0 <= j < |rest|
      ensures first[i] != rest[j]
    {
      assert first[i] in first && rest[j] in rest;
    }
  }

  /** The visits of the other dirs leave the chain alone. */
  lemma RestSpares(w: World, critical: set<Pid>, c: seq<Dir>, rest: seq<Dir>)
    requires Sound(w, critical) && Chain(w, critical, c)
    requires (forall d | d in rest :: d in w.created || d !in w.k.dirs) && StrayDir(w.base.value) !in rest
    requires forall d | d in c :: d !in rest
    ensures var w' := SweepDirs(w, critical, rest); Sound(w', critical) && Chain(w', critical, c)
  {
    SweptDirs(w, critical, rest);
    var w' := SweepDirs(w, critical, rest);
    forall i | 0 <= i < |c|
      ensures Vacant(w', critical, c[i])
    {
      assert c[i] in c;
      ManagedIsProper(w, critical, c[i]);
      UnvisitedStays(w, critical, rest, c[i]);
      StaysVacant(w, w', critical, (set d | d in rest), c[i]);
    }
  }

  /** Adoption leaves it alone, too. */
  lemma AdoptionSpares(w: World, critical: set<Pid>, c: seq<Dir>)
    requires Sound(w, critical) && Chain(w, critical, c)
    requires |c| >= 2 || forall d | d in c :: d in w.created
    ensures Chain(AdoptDirs(w, Unadopted(w)), critical, c)
  {
    AdoptionSweeps(w, critical);
    var w' := AdoptDirs(w, Unadopted(w));
    forall i | 0 <= i < |c|
      ensures Vacant(w', critical, c[i])
    {
      assert c[i] in c;
      if i > 0 {
        NotBelowManaged(w, critical, c[0], c[i]);
      } else if |c| >= 2 {
        assert c[0] < c[1] && c[1] in w.k.dirs;
        assert !Removable(w.k, c[0]);
      }
      StaysVacant(w, w', critical, {}, c[i]);
    }
  }

  lemma ChainIsKnown(w: World, critical: set<Pid>, c: seq<Dir>, i: nat)
    requires Sound(w, critical) && Chain(w, critical, c) && c != [] && i == (if c[0] in w.created then 0 else 1)
    ensures forall j | i <= j < |c| :: c[j] in w.created
  {
    forall j | i <= j < |c|
      ensures c[j] in w.created
    {
      if j > 0 {
        NotBelowManaged(w, critical, c[0], c[j]);
      }
    }
  }

  lemma RestAfterFirst(w: World, critical: set<Pid>, c: seq<Dir>, i: nat, rest: seq<Dir>)
    requires Sound(w, critical) && Chain(w, critical, c) && c != [] && i == (if c[0] in w.created then 0 else 1)
    requires Enumerates(rest, w.created - set d | d in c[i..])
    requires var w1 := SweepDirs(w, critical, c[i..]); Sound(w1, critical) && Chain(w1, critical, c[..|c| - 1])
    ensures var w2 := SweepDirs(w, critical, c[i..] + rest); Sound(w2, critical) && Chain(w2, critical, c[..|c| - 1])
  {
    var first, kept := c[i..], c[..|c| - 1];
    var w1 := SweepDirs(w, critical, first);
    ChainIsKnown(w, critical, c, i);
    forall d | d in rest
      ensures d in w1.created || d !in w1.k.dirs
    {
      KnownAfter(w, critical, first, d);
    }
    forall d | d in kept
      ensures d !in rest
    {
      assert d in first || d == c[0];
    }
    SweepDirsConcat(w, critical, first, rest);
    RestSpares(w1, critical, kept, rest);
  }

  /** A chain of at least two loses no more than its innermost dir in a sweep that visits it from the outside in. */
  lemma ChainSurvives(w: World, critical: set<Pid>, c: seq<Dir>) returns (order: seq<Dir>)
    requires Sound(w, critical) && Chain(w, critical, c) && (|c| >= 3 || (|c| == 2 && AllAdopted(w)))
    ensures Enumerates(order, w.created)
    ensures Chain(Sweep(w, critical, order), critical, c[..|c| - 1])
  {
    order := OutermostFirst(w, critical, c);
    if |c| == 2 {
      KnownAfter(w, critical, order, c[0]);
    }
    AdoptionSpares(SweepDirs(w, critical, order), critical, c[..|c| - 1]);
  }

  /** An order that visits the chain from the outside in, and then the rest. */
  lemma OutermostFirst(w: World, critical: set<Pid>, c: seq<Dir>) returns (order: seq<Dir>)
    requires Sound(w, critical) && Chain(w, critical, c) && c != []
    ensures Enumerates(order, w.created)
    ensures var w' := SweepDirs(w, critical, order); Sound(w', critical) && Chain(w', critical, c[..|c| - 1])
  {
    var i := if c[0] in w.created then 0 else 1;
    ChainIsKnown(w, critical, c, i);
    var first := c[i..];
    var rest := SomeOrder(w.created - set d | d in first);
    FirstThenRest(w.created, first, rest);
    order := first + rest;
    OutsideIn(w, critical, c, i);
    RestAfterFirst(w, critical, c, i, rest);
  }

  lemma {:induction false} ChainOutlasts(w: World, critical: set<Pid>, c: seq<Dir>) returns (orders: seq<seq<Dir>>)
    requires Sound(w, critical) && Chain(w, critical, c) && |c| >= 1
    requires |c| >= 3 || |c| == 1 || AllAdopted(w)
    ensures |orders| == |c| - 1 && Proper(w, critical, orders)
    ensures Vacant(Sweeps(w, critical, orders), critical, c[0])
    decreases c
  {
    if |c| == 1 {
      orders := [];
    } else {
      var order := ChainSurvives(w, critical, c);
      OneSweep(w, critical, order);
      var w1 := Sweep(w, critical, order);
      var rest := ChainOutlasts(w1, critical, c[..|c| - 1]);
      orders := [order] + rest;
      assert orders[1..] == rest;
    }
  }

  lemma {:induction false} SomeOrders(w: World, critical: set<Pid>, n: nat) returns (orders: seq<seq<Dir>>)
    ensures |orders| == n && Proper(w, critical, orders)
    decreases n
  {
    if n == 0 {
      orders := [];
    } else {
      var order := SomeOrder(w.created);
      var rest := SomeOrders(Sweep(w, critical, order), critical, n - 1);
      orders := [order] + rest;
      assert orders[1..] == rest;
    }
  }

  /** Stray clearing, exactly: `n` sweeps, two or more (or one, once every `nw-` child is known), whatever the order of
      each, leave only enrolled or critical processes in managed dirs, none of them empty, with nothing left for a
      further sweep to change, if and only if below every vacant dir there are only vacant dirs, and no more than `n`
      of them are nested in each other. */
  lemma SweepsClearIff(w: World, critical: set<Pid>, n: nat)
    requires Sound(w, critical) && (n >= 2 || (n == 1 && AllAdopted(w)))
    ensures (forall orders | |orders| == n && Proper(w, critical, orders) :: Finished(Sweeps(w, critical, orders), critical)) <==>
            (Unblocked(w, critical) && NoChain(w, critical, n + 1))
  {
    if Unblocked(w, critical) && NoChain(w, critical, n + 1) {
      forall orders | |orders| == n && Proper(w, critical, orders)
        ensures Finished(Sweeps(w, critical, orders), critical)
      {
        SweepsClear(w, critical, orders);
      }
    } else {
      var orders, x := SomeSeriesFails(w, critical, n);
      VacantIsNotCleared(Sweeps(w, critical, orders), critical, x);
    }
  }

  lemma VacantIsNotCleared(w: World, critical: set<Pid>, x: Dir)
    requires Vacant(w, critical, x)
    ensures !Finished(w, critical)
  {
    if p :| p in Procs(w.k, x) {
      assert p in Strays(w, critical, x);
    }
  }

  lemma SomeSeriesFails(w: World, critical: set<Pid>, n: nat) returns (orders: seq<seq<Dir>>, x: Dir)
    requires Sound(w, critical) && (n >= 2 || (n == 1 && AllAdopted(w)))
    requires !(Unblocked(w, critical) && NoChain(w, critical, n + 1))
    ensures |orders| == n && Proper(w, critical, orders) && Vacant(Sweeps(w, critical, orders), critical, x)
  {
    if !Unblocked(w, critical) {
      var e;
      x, e :| Vacant(w, critical, x) && e in w.k.dirs && x < e && !Vacant(w, critical, e);
      orders := SomeOrders(w, critical, n);
      BlockedForEver(w, critical, orders, x, e);
    } else {
      var c: seq<Dir> :| Chain(w, critical, c) && |c| >= n + 1;
      orders := ChainOutlasts(w, critical, c[..n + 1]);
      x := c[0];
    }
  }

  /** Two sweeps and a third: what a daemon does after a crash, when it knows of no dir it created. */
  lemma TwoSweepsClear(w: World, critical: set<Pid>, first: seq<Dir>, second: seq<Dir>, third: seq<Dir>)
    requires Sound(w, critical) && Unblocked(w, critical) && NoChain(w, critical, 3)
    requires Enumerates(first, w.created)
    requires Enumerates(second, Sweep(w, critical, first).created)
    requires Enumerates(third, Sweep(Sweep(w, critical, first), critical, second).created)
    ensures var w2 := Sweep(Sweep(w, critical, first), critical, second);
      && (forall d | Managed(w2, d) :: Procs(w2.k, d) != {} && forall p | p in Procs(w2.k, d) :: p in w2.enrolled || p in critical)
      && Sweep(w2, critical, third) == w2
  {
    var orders := [first, second];
    assert orders[1..] == [second] && [second][1..] == [];
    var w1 := Sweep(w, critical, first);
    assert Proper(w1, critical, [second]);
    SweepsClear(w, critical, orders);
    assert Sweeps(w1, critical, [second]) == Sweep(w1, critical, second);
  }

  // ----- two inputs -----

  /** Empty dirs `ds` below base `["b"]`, all created by the daemon, and no processes. */
  function Empties(ds: set<Dir>): World {
    World(Some(["b"]), map[], ds, false,
          Kernel(map[], ds + {[], ["b"]}, map[], true, Absent, Denials({}, {}, {}, false, false)))
  }

  /** Three empty dirs in each other: some two sweeps, which visit outer dirs first, leave one standing. */
  lemma NestedDirsNeedMoreSweeps() returns (orders: seq<seq<Dir>>)
    ensures var w := Empties({["b", "r"], ["b", "r", "s"], ["b", "r", "s", "t"]});
      Sound(w, {}) && |orders| == 2 && Proper(w, {}, orders) && !Finished(Sweeps(w, {}, orders), {})
  {
    var x: Dir, y: Dir, z: Dir := ["b", "r"], ["b", "r", "s"], ["b", "r", "s", "t"];
    var w := Empties({x, y, z});
    NestedSound(x, y, z);
    assert Chain(w, {}, [x, y, z]);
    orders := ChainOutlasts(w, {}, [x, y, z]);
    VacantIsNotCleared(Sweeps(w, {}, orders), {}, x);
  }

  lemma NestedSound(x: Dir, y: Dir, z: Dir)
    requires x == ["b", "r"] && y == ["b", "r", "s"] && z == ["b", "r", "s", "t"]
    ensures Sound(Empties({x, y, z}), {})
  {
    var w := Empties({x, y, z});
    assert StrayDir(["b"])[1] == "_strays" && "_strays"[0] != "r"[0];
    forall d: Dir, c: Dir | d in w.k.dirs && c <= d
      ensures c in w.k.dirs
    {
      assert c == d[..|c|];
      assert z[..0] == [] && z[..1] == ["b"] && z[..2] == x && z[..3] == y && z[..4] == z;
      assert d <= z;
      assert c == z[..|c|];
    }
  }
}
