/** The GUI's edits of the active config, and their algebra. */
module Edits {
  import opened Wrappers
  import opened Config
  import opened Rules

  /** Pin a process name to a tier's preset; an existing cgroup block is kept. */
  function UpsertPreset(cfg: AppConfig, name: string, tier: Tier): AppConfig {
    var cgroup := if name in cfg.rules then cfg.rules[name].cgroup else None;
    cfg.(rules := cfg.rules[name := FromPreset(name, tier).(cgroup := cgroup)])
  }

  function CapOnly(pct: nat): CgroupLimits { NoLimits.(cpuCapPercent := Some(pct)) }

  /** The emptiness test of `upsert_cap_rule`: it does not look at `cpu_idle`. */
  predicate LooksEmpty(cg: CgroupLimits) {
    cg.path.None? && cg.cpuWeight.None? && cg.memoryHigh.None? && cg.memoryMax.None?
  }

  function WithCap(cgroup: Option<CgroupLimits>, pct: Option<nat>): Option<CgroupLimits> {
    match cgroup
    case Some(cg) =>
      if pct.Some? then Some(cg.(cpuCapPercent := pct))
      else if LooksEmpty(cg) then None
      else Some(cg.(cpuCapPercent := None))
    case None => if pct.Some? then Some(CapOnly(pct.value)) else None
  }

  /** Set or remove the hard CPU cap of a name's rule, creating a Software rule if there is none. */
  function UpsertCap(cfg: AppConfig, name: string, pct: Option<nat>): AppConfig {
    var r := if name in cfg.rules then cfg.rules[name] else FromPreset(name, Software);
    cfg.(rules := cfg.rules[name := r.(cgroup := WithCap(r.cgroup, pct))])
  }

  datatype Edit = SetTier(tier: Tier) | SetCap(pct: Option<nat>)

  function Do(cfg: AppConfig, name: string, e: Edit): AppConfig {
    match e
    case SetTier(t) => UpsertPreset(cfg, name, t)
    case SetCap(p) => UpsertCap(cfg, name, p)
  }

  function DoAll(cfg: AppConfig, name: string, es: seq<Edit>): AppConfig
    decreases es
  {
    if es == [] then cfg else Do(DoAll(cfg, name, es[..|es| - 1]), name, es[|es| - 1])
  }

  function LastTier(es: seq<Edit>): Option<Tier>
    decreases es
  {
    if es == [] then None
    else if es[|es| - 1].SetTier? then Some(es[|es| - 1].tier)
    else LastTier(es[..|es| - 1])
  }

  function LastCap(es: seq<Edit>): Option<Option<nat>>
    decreases es
  {
    if es == [] then None
    else if es[|es| - 1].SetCap? then Some(es[|es| - 1].pct)
    else LastCap(es[..|es| - 1])
  }

  function CapOf(r: Rule): Option<nat> {
    if r.cgroup.Some? then r.cgroup.value.cpuCapPercent else None
  }

  /** A rule's scheduling half: everything but its cgroup block. */
  function Scheduling(r: Rule): Rule { r.(cgroup := None) }

  /** After any interleaving of tier and cap edits of one name, the rule's scheduling half is the preset of the last
      tier set, or else what it was at first, or else Software; its cap is the last one set or removed, or else what
      it was; and no other rule has changed. */
  lemma {:induction false} LastEditsWin(cfg: AppConfig, name: string, es: seq<Edit>)
    requires es != []
    ensures var cfg' := DoAll(cfg, name, es);
      && cfg' == cfg.(rules := cfg.rules[name := cfg'.rules[name]])
      && name in cfg'.rules
      && Scheduling(cfg'.rules[name]) ==
           (if LastTier(es).Some? then FromPreset(name, LastTier(es).value)
            else if name in cfg.rules then Scheduling(cfg.rules[name])
            else FromPreset(name, Software))
      && CapOf(cfg'.rules[name]) ==
           (if LastCap(es).Some? then LastCap(es).value
            else if name in cfg.rules then CapOf(cfg.rules[name])
            else None)
    decreases es
  {
    var first := es[..|es| - 1];
    if first == [] {
      assert DoAll(cfg, name, first) == cfg;
    } else {
      LastEditsWin(cfg, name, first);
    }
  }

  /** A tier edit and a cap edit commute, on every config. */
  lemma TierAndCapCommute(cfg: AppConfig, name: string, t: Tier, p: Option<nat>)
    ensures UpsertCap(UpsertPreset(cfg, name, t), name, p) == UpsertPreset(UpsertCap(cfg, name, p), name, t)
  {
    var a := UpsertCap(UpsertPreset(cfg, name, t), name, p);
    var b := UpsertPreset(UpsertCap(cfg, name, p), name, t);
    assert a.rules[name] == b.rules[name];
    assert a.rules == b.rules;
  }

  function Only(es: seq<Edit>, tiers: bool): seq<Edit>
    decreases es
  {
    if es == [] then []
    else
      var last := es[|es| - 1];
      var rest := Only(es[..|es| - 1], tiers);
      if last.SetTier? == tiers then rest + [last] else rest
  }

  lemma {:induction false} TierPastCaps(cfg: AppConfig, name: string, t: Tier, caps: seq<Edit>)
    requires forall e | e in caps :: e.SetCap?
    ensures DoAll(UpsertPreset(cfg, name, t), name, caps) == UpsertPreset(DoAll(cfg, name, caps), name, t)
    decreases caps
  {
    if caps != [] {
      var rest := caps[..|caps| - 1];
      var p := caps[|caps| - 1].pct;
      TierPastCaps(cfg, name, t, rest);
      TierAndCapCommute(DoAll(cfg, name, rest), name, t, p);
    }
  }

  lemma {:induction false} OnlyCaps(es: seq<Edit>)
    ensures forall e | e in Only(es, false) :: e.SetCap?
    decreases es
  {
    if es != [] {
      OnlyCaps(es[..|es| - 1]);
    }
  }

  /** Hence the interleaving of the two kinds never matters: any mix equals its tier edits followed by its cap edits. */
  lemma {:induction false} InterleavingIsIrrelevant(cfg: AppConfig, name: string, es: seq<Edit>)
    ensures DoAll(cfg, name, es) == DoAll(DoAll(cfg, name, Only(es, true)), name, Only(es, false))
    decreases es
  {
    if es != [] {
      var rest := es[..|es| - 1];
      var last := es[|es| - 1];
      InterleavingIsIrrelevant(cfg, name, rest);
      var tiers, caps := Only(rest, true), Only(rest, false);
      if last.SetTier? {
        OnlyCaps(rest);
        TierPastCaps(DoAll(cfg, name, tiers), name, last.tier, caps);
        assert (tiers + [last])[..|tiers|] == tiers;
      } else {
        assert (caps + [last])[..|caps|] == caps;
      }
    }
  }

  /** Setting a cap on an uncapped rule and removing it again restores the config exactly if the rule had no cgroup
      block, or had one with a path, a weight or a memory limit; a lone `cpu_idle` is lost. */
  lemma CapUndoneIff(cfg: AppConfig, name: string, pct: nat)
    requires name in cfg.rules && CapOf(cfg.rules[name]).None?
    ensures UpsertCap(UpsertCap(cfg, name, Some(pct)), name, None) == cfg <==>
            (cfg.rules[name].cgroup.None? || !LooksEmpty(cfg.rules[name].cgroup.value))
  {
    var cfg' := UpsertCap(UpsertCap(cfg, name, Some(pct)), name, None);
    assert cfg'.rules == cfg.rules[name := cfg'.rules[name]];
    if cfg'.rules[name] == cfg.rules[name] {
      assert cfg'.rules == cfg.rules;
    }
  }

  /** Removing a cap keeps the other limits exactly if `cpu_idle` is unset or is not the only one beside the cap. */
  lemma CapRemovalKeepsOthersIff(cfg: AppConfig, name: string)
    requires name in cfg.rules && cfg.rules[name].cgroup.Some?
    ensures var cg := cfg.rules[name].cgroup.value;
      UpsertCap(cfg, name, None).rules[name].cgroup.GetOr(NoLimits) == cg.(cpuCapPercent := None) <==>
      (cg.cpuIdle.None? || !LooksEmpty(cg))
  {
  }

  /** Rule names are their keys, as after every load. */
  ghost predicate NamesFilled(cfg: AppConfig) {
    forall k | k in cfg.rules :: cfg.rules[k].name == k
  }

  /** What a tier edit asks for. */
  function TierTarget(cfg: AppConfig, name: string, t: Tier): ApplyTarget {
    var p := TierPreset(t);
    ApplyTarget(Some(t), p.nice, p.ioniceClass, p.ionicePriority, Some(name),
                if name in cfg.rules then cfg.rules[name].cgroup else None)
  }

  lemma TierEditDecides(cfg: AppConfig, name: string, t: Tier, flags: GameFlags, age: nat)
    requires forall k | k in cfg.rules && cfg.rules[k].matchName == name :: !Before(name, k)
    ensures Resolve(Build(UpsertPreset(cfg, name, t)), name, flags, age) == Apply(TierTarget(cfg, name, t))
  {
    var cfg' := UpsertPreset(cfg, name, t);
    forall j | j in cfg'.rules && cfg'.rules[j].matchName == name
      ensures j == name || Before(j, name)
    {
      BeforeTotal(j, name);
    }
    GreatestKeyWins(cfg', name, name);
  }

  /** A matching rule under a later key keeps the rule under `k` from being found. */
  lemma {:induction false} LaterKeyOverrules(keys: seq<string>, rules: map<string, Rule>, n: string, k: string, later: string)
    requires (forall j | j in keys :: j in rules && rules[j].name == j) && InOrder(keys)
    requires later in keys && rules[later].matchName == n && Before(k, later)
    ensures Scan(keys, rules, n).Some? && Scan(keys, rules, n).value.name != k
    decreases keys
  {
    var last := keys[|keys| - 1];
    assert keys == keys[..|keys| - 1] + [last];
    var i :| 0 <= i < |keys| && keys[i] == later;
    BeforeTotal(k, later);
    assert i == |keys| - 1 || Before(keys[i], keys[|keys| - 1]);
    if rules[last].matchName != n {
      LaterKeyOverrules(keys[..|keys| - 1], rules, n, k, later);
    }
  }

  /** After a tier edit of `name`, a process of that name gets exactly that preset, for all flags and ages, precisely
      when no rule under a later key matches the same name. */
  lemma TierEditDecidesIff(cfg: AppConfig, name: string, t: Tier)
    requires NamesFilled(cfg)
    ensures var rs := Build(UpsertPreset(cfg, name, t));
      (forall flags, age :: Resolve(rs, name, flags, age) == Apply(TierTarget(cfg, name, t))) <==>
      (forall k | k in cfg.rules && cfg.rules[k].matchName == name :: !Before(name, k))
  {
    var cfg' := UpsertPreset(cfg, name, t);
    if k :| k in cfg.rules && cfg.rules[k].matchName == name && Before(name, k) {
      BeforeTotal(name, k);
      BuildMeaning(cfg');
      LaterKeyOverrules(SortedKeys(cfg'.rules.Keys), cfg'.rules, name, name, k);
      assert Resolve(Build(cfg'), name, NoFlags, 0) != Apply(TierTarget(cfg, name, t));
    } else {
      forall flags, age
        ensures Resolve(Build(cfg'), name, flags, age) == Apply(TierTarget(cfg, name, t))
      {
        TierEditDecides(cfg, name, t, flags, age);
      }
    }
  }
}
