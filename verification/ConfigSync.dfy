/** `Sync` as an object updated in place; every method takes its fields and the disk where the functions of module
    SyncSteps say. */
module ConfigSync {
  import opened Wrappers
  import opened Config
  import opened Edits
  import opened SyncSteps

  /** The file system and the clock. */
  class Storage {
    var disk: Disk

    /** Replace a file through a temporary one; the new version gets a new mtime. */
    method AtomicWrite(f: Which, t: Text) returns (ok: bool)
      modifies this
      ensures var d := old(disk);
        && ok == !(if f == LocalFile then d.denyLocal else d.denyRoot)
        && disk == if !ok then d
                   else if f == LocalFile then d.(local := Some(File(t, d.nextMtime)), nextMtime := d.nextMtime + 1)
                   else d.(root := Some(File(t, d.nextMtime)), nextMtime := d.nextMtime + 1)
    {
      match f
      case LocalFile =>
        ok := !disk.denyLocal;
        if ok {
          disk := disk.(local := Some(File(t, disk.nextMtime)), nextMtime := disk.nextMtime + 1);
        }
      case RootFile =>
        ok := !disk.denyRoot;
        if ok {
          disk := disk.(root := Some(File(t, disk.nextMtime)), nextMtime := disk.nextMtime + 1);
        }
    }
  }

  class Sync {
    const storage: Storage
    const promoteDebounce: nat
    const writeDebounce: nat
    var active: AppConfig
    var activeSource: Source
    var pendingPromote: bool
    var localChangedAt: Option<nat>
    var localMtimeAtChange: Option<nat>
    var pendingLocalWrite: bool
    var localWriteAt: Option<nat>
    var selfWrites: map<Which, nat>
    var knownMtimes: map<Which, Option<nat>>

    function View(): State
      reads this, storage
    {
      State(active, activeSource, promoteDebounce, writeDebounce, pendingPromote, localChangedAt, localMtimeAtChange,
            pendingLocalWrite, localWriteAt, selfWrites, knownMtimes, storage.disk)
    }

    constructor (storage: Storage, promoteDebounce: nat, writeDebounce: nat)
      ensures View() == Fresh(promoteDebounce, writeDebounce, storage.disk) && this.storage == storage
    {
      this.storage := storage;
      this.promoteDebounce := Max(promoteDebounce, MIN_PROMOTE_DEBOUNCE);
      this.writeDebounce := writeDebounce;
      active, activeSource := DefaultConfig, Missing;
      pendingPromote, localChangedAt, localMtimeAtChange := false, None, None;
      pendingLocalWrite, localWriteAt := false, None;
      selfWrites, knownMtimes := map[], map[];
    }

    method LoadRootFile()
      modifies this`active, this`activeSource
      ensures View() == LoadRoot(old(View()))
    {
      var cfg := Load(storage.disk, RootFile);
      if cfg.Some? {
        active, activeSource := cfg.value, Root;
      }
    }

    method LoadLocalFile(now: nat)
      modifies this`active, this`activeSource, this`localChangedAt, this`localMtimeAtChange
      ensures View() == LoadLocal(old(View()), now)
    {
      var cfg := Load(storage.disk, LocalFile);
      if cfg.Some? {
        active, activeSource := cfg.value, Local;
        localChangedAt := Some(now);
        localMtimeAtChange := Mtime(storage.disk, LocalFile);
      }
    }

    method InitialLoad(now: nat)
      modifies this
      ensures View() == SyncSteps.InitialLoad(old(View()), now)
    {
      var rootM, localM := Mtime(storage.disk, RootFile), Mtime(storage.disk, LocalFile);
      match (rootM, localM) {
        case (None, None) =>
          active, activeSource := DefaultConfig, Missing;
        case (Some(_), None) =>
          LoadRootFile();
        case (None, Some(_)) =>
          LoadLocalFile(now);
          pendingPromote := true;
        case (Some(r), Some(l)) =>
          if l > r {
            LoadLocalFile(now);
            pendingPromote := true;
          } else {
            LoadRootFile();
          }
      }
      knownMtimes := knownMtimes[LocalFile := Mtime(storage.disk, LocalFile)][RootFile := Mtime(storage.disk, RootFile)];
    }

    method OnPathChanged(f: Which, now: nat) returns (changed: bool)
      modifies this
      ensures (View(), changed) == SyncSteps.OnPathChanged(old(View()), f, now)
    {
      if IsSelfWrite(View(), f) {
        return false;
      }
      match f {
        case LocalFile =>
          LoadLocalFile(now);
          pendingPromote := true;
        case RootFile =>
          // Root edited directly: it is authoritative immediately.
          LoadRootFile();
          pendingPromote := false;
      }
      return true;
    }

    /** Local first, then root. */
    method PollMtimes(now: nat) returns (changed: bool)
      modifies this
      ensures (View(), changed) == SyncSteps.PollMtimes(old(View()), now)
    {
      changed := false;
      var cur := Mtime(storage.disk, LocalFile);
      if LocalFile !in knownMtimes || knownMtimes[LocalFile] != cur {
        knownMtimes := knownMtimes[LocalFile := cur];
        changed := OnPathChanged(LocalFile, now);
      }
      cur := Mtime(storage.disk, RootFile);
      if RootFile !in knownMtimes || knownMtimes[RootFile] != cur {
        knownMtimes := knownMtimes[RootFile := cur];
        var c := OnPathChanged(RootFile, now);
        changed := changed || c;
      }
    }

    method WriteLocalFile()
      modifies this, storage
      ensures View() == WriteLocal(old(View()))
    {
      var ok := storage.AtomicWrite(LocalFile, Rendered(active));
      if ok {
        var m := Mtime(storage.disk, LocalFile);
        selfWrites := selfWrites[LocalFile := m.value];
        localChangedAt := Some(storage.disk.clock);
        localMtimeAtChange := m;
        pendingPromote := true;
      }
    }

    method PromoteFile() returns (wrote: bool)
      modifies this, storage
      ensures (View(), wrote) == Promote(old(View()))
    {
      if storage.disk.local.None? {
        return false;
      }
      wrote := storage.AtomicWrite(RootFile, storage.disk.local.value.text);
      if wrote {
        selfWrites := selfWrites[RootFile := Mtime(storage.disk, RootFile).value];
        activeSource := Root;
      }
      // On failure: no retry before the next local edit.
      pendingPromote := false;
    }

    /** Flush a due local write, then promote a settled local file. */
    method Tick(now: nat) returns (wroteRoot: bool)
      modifies this, storage
      ensures (View(), wroteRoot) == SyncSteps.Tick(old(View()), now)
    {
      wroteRoot := false;
      if pendingLocalWrite && localWriteAt.Some? && now >= localWriteAt.value {
        WriteLocalFile();
        pendingLocalWrite := false;
      }
      if pendingPromote {
        var settled := localChangedAt.Some? && Since(now, localChangedAt.value) >= promoteDebounce;
        if settled && LocalStillUnchanged(View()) {
          wroteRoot := PromoteFile();
        }
      }
    }

    method ScheduleLocalWrite()
      modifies this`pendingLocalWrite, this`localWriteAt
      ensures View() == old(View()).(pendingWrite := true, writeAt := Some(storage.disk.clock + writeDebounce))
    {
      pendingLocalWrite := true;
      localWriteAt := Some(storage.disk.clock + writeDebounce);
    }

    method UpsertPresetRule(name: string, tier: Tier)
      modifies this
      ensures View() == Upsert(old(View()), EditRule(name, SetTier(tier)))
    {
      var rule := FromPreset(name, tier);
      if name in active.rules {
        rule := rule.(cgroup := active.rules[name].cgroup);
      }
      active := active.(rules := active.rules[name := rule]);
      activeSource := Local;
      ScheduleLocalWrite();
    }

    method UpsertCapRule(name: string, pct: Option<nat>)
      modifies this
      ensures View() == Upsert(old(View()), EditRule(name, SetCap(pct)))
    {
      if name in active.rules {
        var existing := active.rules[name];
        match existing.cgroup {
          case Some(cg) =>
            if pct.Some? {
              existing := existing.(cgroup := Some(cg.(cpuCapPercent := pct)));
            } else {
              existing := existing.(cgroup := Some(cg.(cpuCapPercent := None)));
              if cg.path.None? && cg.cpuWeight.None? && cg.memoryHigh.None? && cg.memoryMax.None? {
                existing := existing.(cgroup := None);
              }
            }
          case None =>
            if pct.Some? {
              existing := existing.(cgroup := Some(CgroupLimits(None, None, pct, None, None, None)));
            }
        }
        active := active.(rules := active.rules[name := existing]);
      } else {
        var rule := FromPreset(name, Software);
        if pct.Some? {
          rule := rule.(cgroup := Some(CgroupLimits(None, None, pct, None, None, None)));
        }
        active := active.(rules := active.rules[name := rule]);
      }
      activeSource := Local;
      ScheduleLocalWrite();
    }

    method SetPollInterval(ms: nat)
      modifies this
      ensures View() == Upsert(old(View()), GuiEdit.SetPollInterval(ms))
    {
      active := active.(pollIntervalMs := Some(ms));
      activeSource := Local;
      ScheduleLocalWrite();
    }
  }
}
