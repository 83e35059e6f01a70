/** The snapshot record and the collector that fills it (src/data_services/data_collector.rs).
    The provider (`sysinfo`) is abstract: its state is a value that counts the refresh calls
    made on it, and each extractor is a function of that state that may fail. */
module Collector {
  import opened Wrappers
  import opened SysData

  /** One cycle's readings; each subsystem may be absent independently. */
  datatype DataCollected = DataCollected(
    cpu: Option<seq<CpuData>>,
    processes: Option<seq<ProcessData>>,
    disk: Option<seq<DiskData>>,
    networks: Option<seq<NetworkData>>)

  /** `DataCollected::default()`. */
  function DefaultCollected(): (d: DataCollected)
    ensures d.cpu.None? && d.processes.None? && d.disk.None? && d.networks.None?
  {
    DataCollected(None, None, None, None)
  }

  /** The provider's state as far as the core can observe it: how often each of its parts
      has been refreshed. */
  datatype SysinfoSource = SysinfoSource(
    networkRefreshes: nat, networkListRefreshes: nat, cpuRefreshes: nat, processRefreshes: nat,
    diskListRefreshes: nat, diskRefreshes: nat)

  /** `SysinfoSource::default`: an empty `System`, and the disk and network lists each built
      with `new_with_refreshed_list`, so refreshed once. */
  function DefaultSource(): SysinfoSource {
    SysinfoSource(0, 1, 0, 0, 1, 0)
  }

  /** The refresh calls of `refresh_sysinfo`, in order, and the four extractions. */
  datatype ProviderCall =
    | RefreshNetworks | RefreshCpu | RefreshProcesses | RefreshDiskList | RefreshDisks
    | ExtractCpu | ExtractProcesses | ExtractDisks | ExtractNetworks

  predicate IsRefresh(c: ProviderCall) {
    c.RefreshNetworks? || c.RefreshCpu? || c.RefreshProcesses? || c.RefreshDiskList? || c.RefreshDisks?
  }

  const RefreshCalls: seq<ProviderCall> := [RefreshNetworks, RefreshCpu, RefreshProcesses, RefreshDiskList, RefreshDisks]
  const ExtractCalls: seq<ProviderCall> := [ExtractCpu, ExtractProcesses, ExtractDisks, ExtractNetworks]

  /** The state after one `refresh_sysinfo`: every part but the network list refreshed once
      more (its `refresh_list` call is commented out in the source). */
  function Refreshed(s: SysinfoSource): (t: SysinfoSource)
    ensures t.networkRefreshes == s.networkRefreshes + 1 && t.cpuRefreshes == s.cpuRefreshes + 1
    ensures t.processRefreshes == s.processRefreshes + 1 && t.networkListRefreshes == s.networkListRefreshes
    ensures t.diskListRefreshes == s.diskListRefreshes + 1 && t.diskRefreshes == s.diskRefreshes + 1
  {
    SysinfoSource(s.networkRefreshes + 1, s.networkListRefreshes, s.cpuRefreshes + 1, s.processRefreshes + 1,
                  s.diskListRefreshes + 1, s.diskRefreshes + 1)
  }

  /** The four extractors (`get_cpu_info`, `get_process_info`, `get_disk_info`,
      `get_network_info`), each a function of the provider state that may fail. */
  datatype Extractors = Extractors(
    cpu: SysinfoSource -> Result<seq<CpuData>, Report>,
    processes: SysinfoSource -> Result<seq<ProcessData>, Report>,
    disk: SysinfoSource -> Result<seq<DiskData>, Report>,
    networks: SysinfoSource -> Result<seq<NetworkData>, Report>)

  /** `update_info`: the extractor's success value, or absent when it fails (the warning it
      logs is not modelled). */
  function UpdateInfo<T>(getInfo: SysinfoSource -> Result<T, Report>, sys: SysinfoSource): (o: Option<T>)
    ensures o.Some? <==> getInfo(sys).Ok?
    ensures o.Some? ==> o.value == getInfo(sys).value
  {
    match getInfo(sys)
    case Ok(info) => Some(info)
    case Err(_) => None
  }

  /** The snapshot `update_data` assembles from the provider state it extracts from. */
  function Collect(ex: Extractors, sys: SysinfoSource): DataCollected {
    DataCollected(UpdateInfo(ex.cpu, sys), UpdateInfo(ex.processes, sys),
                  UpdateInfo(ex.disk, sys), UpdateInfo(ex.networks, sys))
  }

  /** Subsystem isolation: each field of a snapshot is decided by its own extractor alone.
      Two extractor sets that agree on one subsystem give the same value for that field,
      however the other three behave (in particular when they fail). */
  lemma CollectIsolation(ex1: Extractors, ex2: Extractors, sys: SysinfoSource)
    ensures ex1.cpu(sys) == ex2.cpu(sys) ==> Collect(ex1, sys).cpu == Collect(ex2, sys).cpu
    ensures ex1.processes(sys) == ex2.processes(sys) ==> Collect(ex1, sys).processes == Collect(ex2, sys).processes
    ensures ex1.disk(sys) == ex2.disk(sys) ==> Collect(ex1, sys).disk == Collect(ex2, sys).disk
    ensures ex1.networks(sys) == ex2.networks(sys) ==> Collect(ex1, sys).networks == Collect(ex2, sys).networks
  {
  }

  /** A failing process extractor leaves the other three fields populated whenever their
      own extractors succeed. */
  lemma ProcessFailureIsolated(ex: Extractors, sys: SysinfoSource)
    requires ex.processes(sys).Err?
    ensures Collect(ex, sys).processes.None?
    ensures ex.cpu(sys).Ok? ==> Collect(ex, sys).cpu == Some(ex.cpu(sys).value)
    ensures ex.disk(sys).Ok? ==> Collect(ex, sys).disk == Some(ex.disk(sys).value)
    ensures ex.networks(sys).Ok? ==> Collect(ex, sys).networks == Some(ex.networks(sys).value)
  {
  }

  /** `DataCollector`: the in-progress snapshot and the exclusively owned provider. */
  class DataCollector {
    var data: DataCollected
    var sys: SysinfoSource
    /** Every call made on the provider, oldest first. */
    ghost var calls: seq<ProviderCall>

    /** `DataCollector::new`: starts from the default (all-absent) snapshot and a provider
        whose disk and network lists were refreshed once while it was built. */
    constructor ()
      ensures data == DefaultCollected() && sys == DefaultSource() && calls == []
    {
      data := DefaultCollected();
      sys := DefaultSource();
      calls := [];
    }

    /** `refresh_sysinfo`: networks, CPU, processes, disk list and disks, in that order. */
    method RefreshSysinfo()
      modifies this
      ensures sys == Refreshed(old(sys)) && data == old(data)
      ensures calls == old(calls) + RefreshCalls
    {
      sys := sys.(networkRefreshes := sys.networkRefreshes + 1);
      calls := calls + [RefreshNetworks];
      sys := sys.(cpuRefreshes := sys.cpuRefreshes + 1);
      calls := calls + [RefreshCpu];
      sys := sys.(processRefreshes := sys.processRefreshes + 1);
      calls := calls + [RefreshProcesses];
      sys := sys.(diskListRefreshes := sys.diskListRefreshes + 1);
      calls := calls + [RefreshDiskList];
      sys := sys.(diskRefreshes := sys.diskRefreshes + 1);
      calls := calls + [RefreshDisks];
    }

    /** `update_data`: refresh first, then overwrite all four fields from the refreshed
        provider. Nothing of the previous snapshot survives. */
    method UpdateData(ex: Extractors)
      modifies this
      ensures sys == Refreshed(old(sys))
      ensures data == Collect(ex, sys)
      ensures calls == old(calls) + RefreshCalls + ExtractCalls
      ensures forall i :: |old(calls)| <= i < |old(calls)| + |RefreshCalls| ==> IsRefresh(calls[i])
      ensures forall i :: |old(calls)| + |RefreshCalls| <= i < |calls| ==> !IsRefresh(calls[i])
    {
      RefreshSysinfo();
      data := data.(cpu := UpdateInfo(ex.cpu, sys));
      calls := calls + [ExtractCpu];
      data := data.(processes := UpdateInfo(ex.processes, sys));
      calls := calls + [ExtractProcesses];
      data := data.(disk := UpdateInfo(ex.disk, sys));
      calls := calls + [ExtractDisks];
      data := data.(networks := UpdateInfo(ex.networks, sys));
      calls := calls + [ExtractNetworks];
    }
  }
}
