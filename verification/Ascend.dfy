/** Finite sets of process ids in ascending order: the order of a BTreeMap, and of the GUI's sorted table. */
module Ascend {

  predicate IsLeast(p: nat, s: set<nat>) {
    p in s && forall q | q in s :: p <= q
  }

  lemma {:induction false} LeastExists(s: set<nat>)
    requires s != {}
    ensures exists p :: IsLeast(p, s)
    decreases |s|
  {
    var p :| p in s;
    var rest := s - {p};
    if rest == {} {
      assert s == {p};
      assert IsLeast(p, s);
    } else {
      LeastExists(rest);
      var m :| IsLeast(m, rest);
      assert s == rest + {p};
      if p <= m {
        assert IsLeast(p, s);
      } else {
        assert IsLeast(m, s);
      }
    }
  }

  function Least(s: set<nat>): (p: nat)
    requires s != {}
    ensures IsLeast(p, s)
  {
    LeastExists(s);
    var p :| p in s && IsLeast(p, s);
    p
  }

  ghost predicate StrictlyAscending(r: seq<nat>) {
    forall i, j | 0 <= i < j < |r| :: r[i] < r[j]
  }

  function Ascending(s: set<nat>): (r: seq<nat>)
    ensures forall p :: p in r <==> p in s
    ensures StrictlyAscending(r)
    decreases |s|
  {
    if s == {} then []
    else
      var p := Least(s);
      [p] + Ascending(s - {p})
  }
}
