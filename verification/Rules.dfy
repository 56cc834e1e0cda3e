/** The rule index and the decision what to apply to a process. */
module Rules {
  import opened Wrappers
  import opened Config

  // ----- rule keys in order -----

  /** Lexicographic order on strings, the order of a BTreeMap's keys. */
  predicate Before(a: string, b: string)
    decreases a
  {
    b != [] && (a == [] || a[0] < b[0] || (a[0] == b[0] && Before(a[1..], b[1..])))
  }

  lemma {:induction false} BeforeTotal(a: string, b: string)
    ensures Before(a, b) || Before(b, a) || a == b
    ensures !(Before(a, b) && Before(b, a)) && !Before(a, a)
    decreases a
  {
    if a != [] && b != [] && a[0] == b[0] {
      BeforeTotal(a[1..], b[1..]);
      assert a == [a[0]] + a[1..] && b == [b[0]] + b[1..];
    }
    if a != [] {
      BeforeTotal(a[1..], a[1..]);
    }
  }

  lemma {:induction false} BeforeTransitive(a: string, b: string, c: string)
    requires Before(a, b) && Before(b, c)
    ensures Before(a, c)
    decreases a
  {
    if a != [] && a[0] == b[0] == c[0] {
      BeforeTransitive(a[1..], b[1..], c[1..]);
    }
  }

  predicate IsFirst(k: string, keys: set<string>) {
    k in keys && forall j | j in keys :: j == k || Before(k, j)
  }

  lemma {:induction false} FirstExists(keys: set<string>)
    requires keys != {}
    ensures exists k :: IsFirst(k, keys)
    decreases |keys|
  {
    var k :| k in keys;
    var rest := keys - {k};
    if rest == {} {
      assert keys == {k};
      assert IsFirst(k, keys);
    } else {
      FirstExists(rest);
      var m :| IsFirst(m, rest);
      BeforeTotal(k, m);
      if Before(k, m) {
        forall j | j in rest && j != m
          ensures Before(k, j)
        {
          BeforeTransitive(k, m, j);
        }
        assert IsFirst(k, keys);
      } else {
        assert IsFirst(m, keys);
      }
    }
  }

  lemma FirstUnique(j: string, k: string, keys: set<string>)
    requires IsFirst(j, keys) && IsFirst(k, keys)
    ensures j == k
  {
    BeforeTotal(j, k);
  }

  function First(keys: set<string>): (k: string)
    requires keys != {}
    ensures IsFirst(k, keys)
  {
    FirstExists(keys);
    assert forall i, j | i in keys && IsFirst(i, keys) && j in keys && IsFirst(j, keys) :: i == j by {
      forall i, j | IsFirst(i, keys) && IsFirst(j, keys)
        ensures i == j
      {
        FirstUnique(i, j, keys);
      }
    }
    var k :| k in keys && IsFirst(k, keys);
    k
  }

  ghost predicate InOrder(s: seq<string>) {
    forall i, j | 0 <= i < j < |s| :: Before(s[i], s[j])
  }

  function SortedKeys(keys: set<string>): (s: seq<string>)
    ensures forall k :: k in s <==> k in keys
    ensures InOrder(s)
    decreases |keys|
  {
    if keys == {} then []
    else var k := First(keys); [k] + SortedKeys(keys - {k})
  }

  // ----- the index -----

  datatype RuleSet = RuleSet(byMatch: map<string, Rule>, autoGame: AutoGameConfig)

  function Lookup(rs: RuleSet, processName: string): Option<Rule> {
    if processName in rs.byMatch then Some(rs.byMatch[processName]) else None
  }

  predicate HasRule(rs: RuleSet, processName: string) {
    processName in rs.byMatch
  }

  /** Read rules in the given key order and keep the last one that matches. */
  function Scan(keys: seq<string>, rules: map<string, Rule>, processName: string): Option<Rule>
    requires forall k | k in keys :: k in rules
    decreases keys
  {
    if keys == [] then None
    else
      var k := keys[|keys| - 1];
      if rules[k].matchName == processName then Some(rules[k]) else Scan(keys[..|keys| - 1], rules, processName)
  }

  function MatchNames(rules: map<string, Rule>): set<string> {
    set k | k in rules :: rules[k].matchName
  }

  /** The index a config determines. */
  function Build(cfg: AppConfig): RuleSet {
    RuleSet(
      map n | n in MatchNames(cfg.rules) && Scan(SortedKeys(cfg.rules.Keys), cfg.rules, n).Some?
          :: Scan(SortedKeys(cfg.rules.Keys), cfg.rules, n).value,
      cfg.autoGame.GetOr(DefaultAutoGame))
  }

  /** `from_config`: insert every rule under its match name, in key order. */
  method FromConfig(cfg: AppConfig) returns (rs: RuleSet)
    ensures rs == Build(cfg)
    ensures forall n :: Lookup(rs, n) == Scan(SortedKeys(cfg.rules.Keys), cfg.rules, n)
  {
    var byMatch: map<string, Rule> := map[];
    var keys := SortedKeys(cfg.rules.Keys);
    for i := 0 to |keys|
      invariant forall n :: (if n in byMatch then Some(byMatch[n]) else None) == Scan(keys[..i], cfg.rules, n)
    {
      var rule := cfg.rules[keys[i]];
      assert keys[..i + 1][..i] == keys[..i];
      byMatch := byMatch[rule.matchName := rule];
    }
    assert keys[..|keys|] == keys;
    rs := RuleSet(byMatch, cfg.autoGame.GetOr(DefaultAutoGame));
    BuildMeaning(cfg);
    assert forall n :: n in byMatch <==> Scan(keys, cfg.rules, n).Some?;
    assert forall n :: n in Build(cfg).byMatch <==> Lookup(Build(cfg), n).Some?;
    assert byMatch == Build(cfg).byMatch;
  }

  lemma {:induction false} ScanFinds(keys: seq<string>, rules: map<string, Rule>, n: string)
    requires forall k | k in keys :: k in rules
    ensures Scan(keys, rules, n).Some? ==> exists k :: k in keys && rules[k].matchName == n && rules[k] == Scan(keys, rules, n).value
    ensures Scan(keys, rules, n).None? ==> forall k | k in keys :: rules[k].matchName != n
    decreases keys
  {
    if keys != [] {
      var k := keys[|keys| - 1];
      assert keys == keys[..|keys| - 1] + [k];
      if rules[k].matchName != n {
        ScanFinds(keys[..|keys| - 1], rules, n);
      }
    }
  }

  /** The index and the scan agree on every name. */
  lemma BuildMeaning(cfg: AppConfig)
    ensures forall n :: Lookup(Build(cfg), n) == Scan(SortedKeys(cfg.rules.Keys), cfg.rules, n)
  {
    forall n
      ensures Lookup(Build(cfg), n) == Scan(SortedKeys(cfg.rules.Keys), cfg.rules, n)
    {
      ScanFinds(SortedKeys(cfg.rules.Keys), cfg.rules, n);
    }
  }

  /** Key `k` is the greatest one whose rule matches `n`. */
  ghost predicate Wins(rules: map<string, Rule>, k: string, n: string) {
    k in rules && rules[k].matchName == n && forall j | j in rules && rules[j].matchName == n :: j == k || Before(j, k)
  }

  lemma {:induction false} ScanKeepsGreatest(keys: seq<string>, rules: map<string, Rule>, n: string, k: string)
    requires (forall j | j in keys :: j in rules) && InOrder(keys)
    requires k in keys && rules[k].matchName == n && forall j | j in keys && rules[j].matchName == n :: j == k || Before(j, k)
    ensures Scan(keys, rules, n) == Some(rules[k])
    decreases keys
  {
    var last := keys[|keys| - 1];
    assert keys == keys[..|keys| - 1] + [last];
    if last != k {
      var i :| 0 <= i < |keys| && keys[i] == k;
      assert Before(keys[i], keys[|keys| - 1]);
      BeforeTotal(k, last);
      ScanKeepsGreatest(keys[..|keys| - 1], rules, n, k);
    }
  }

  /** The lookup of a name is the rule under the greatest key that matches it. */
  lemma GreatestKeyWins(cfg: AppConfig, n: string, k: string)
    requires Wins(cfg.rules, k, n)
    ensures Lookup(Build(cfg), n) == Some(cfg.rules[k])
  {
    BuildMeaning(cfg);
    ScanKeepsGreatest(SortedKeys(cfg.rules.Keys), cfg.rules, n, k);
  }

  // ----- the decision -----

  datatype GameFlags = GameFlags(steamEnv: bool, driFd: bool, fullscreen: bool, known: bool) {
    predicate IsGame() {
      known || (driFd && (steamEnv || fullscreen))
    }
  }

  const NoFlags := GameFlags(false, false, false, false)

  datatype ApplyTarget = ApplyTarget(
    tier: Option<Tier>, nice: int, ioniceClass: IoniceClass, ionicePriority: U8,
    rule: Option<string>, cgroup: Option<CgroupLimits>)

  datatype Resolved = Nothing | Apply(target: ApplyTarget)

  function AutoTarget(a: AutoGameConfig): ApplyTarget {
    var p := AutoGamePreset(a);
    ApplyTarget(Some(a.tier.GetOr(Game)), p.nice, p.ioniceClass, p.ionicePriority, None, None)
  }

  function RuleTarget(r: Rule): ApplyTarget {
    var p := TierPreset(r.tier.GetOr(Software));
    ApplyTarget(
      Some(r.tier.GetOr(Software)),
      r.nice.GetOr(p.nice), r.ioniceClass.GetOr(p.ioniceClass), r.ionicePriority.GetOr(p.ionicePriority),
      Some(r.name), r.cgroup)
  }

  function Resolve(rs: RuleSet, processName: string, flags: GameFlags, age: nat): Resolved {
    match Lookup(rs, processName)
    case Some(r) =>
      if r.delay.Some? && age < r.delay.value then Nothing else Apply(RuleTarget(r))
    case None =>
      if flags.IsGame() then Apply(AutoTarget(rs.autoGame)) else Nothing
  }
}
