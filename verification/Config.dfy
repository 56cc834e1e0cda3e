/** The rule schema and the priority presets shared by the daemon and the GUI. */
module Config {
  import opened Wrappers

  type U8 = x: int | 0 <= x < 256

  datatype Tier = Software | Game | Streaming | Realtime

  datatype IoniceClass = NoClass | RealtimeClass | BestEffort | IdleClass

  datatype Preset = Preset(nice: int, ioniceClass: IoniceClass, ionicePriority: U8)

  function TierPreset(tier: Tier): Preset {
    match tier
    case Software => Preset(0, BestEffort, 4)
    case Game => Preset(-8, BestEffort, 2)
    case Streaming => Preset(-10, BestEffort, 1)
    case Realtime => Preset(-12, BestEffort, 0)
  }

  /** Limits of one cgroup.  `path` is given by its components below the cgroup mount point. */
  datatype CgroupLimits = CgroupLimits(
    path: Option<seq<string>>,
    cpuWeight: Option<nat>,
    cpuCapPercent: Option<nat>,
    memoryHigh: Option<string>,
    memoryMax: Option<string>,
    cpuIdle: Option<bool>)

  const NoLimits := CgroupLimits(None, None, None, None, None, None)

  datatype Rule = Rule(
    name: string,
    matchName: string,
    tier: Option<Tier>,
    nice: Option<int>,
    ioniceClass: Option<IoniceClass>,
    ionicePriority: Option<U8>,
    delay: Option<nat>,
    cgroup: Option<CgroupLimits>)

  function FromPreset(processName: string, tier: Tier): Rule {
    var p := TierPreset(tier);
    Rule(processName, processName, Some(tier), Some(p.nice), Some(p.ioniceClass), Some(p.ionicePriority), None, None)
  }

  datatype AutoGameConfig = AutoGameConfig(
    tier: Option<Tier>,
    nice: Option<int>,
    ioniceClass: Option<IoniceClass>,
    ionicePriority: Option<U8>)

  const DefaultAutoGame := AutoGameConfig(None, None, None, None)

  function AutoGamePreset(a: AutoGameConfig): Preset {
    var p := TierPreset(a.tier.GetOr(Game));
    Preset(a.nice.GetOr(p.nice), a.ioniceClass.GetOr(p.ioniceClass), a.ionicePriority.GetOr(p.ionicePriority))
  }

  datatype AppConfig = AppConfig(
    pollIntervalMs: Option<nat>,
    rules: map<string, Rule>,
    autoGame: Option<AutoGameConfig>)

  const DefaultConfig := AppConfig(None, map[], None)
}
