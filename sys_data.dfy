/** The plain per-item records that the system information provider hands to the core
    (src/data_services/{cpu,processes,disks,network}.rs). Only the record shapes are modelled;
    the extraction from the provider is not. */
module SysData {
  import opened Wrappers

  const U16_LIMIT: int := 0x1_0000
  const U32_LIMIT: int := 0x1_0000_0000
  const U64_LIMIT: int := 0x1_0000_0000_0000_0000

  type u16 = x: int | 0 <= x < U16_LIMIT
  type u32 = x: int | 0 <= x < U32_LIMIT
  type u64 = x: int | 0 <= x < U64_LIMIT

  /** One CPU core; `cpuUsage` is the `f64` percentage, modelled as a real. */
  datatype CpuData = CpuData(cpuName: string, vendorId: string, brand: string, cpuUsage: real)

  /** One process; `cpuUsage` is an `f32` in the source. */
  datatype ProcessData = ProcessData(pid: u32, parent: Option<u32>, name: string, status: string, cpuUsage: real)

  datatype DiskData = DiskData(
    name: string, kind: string, fileSystem: string,
    totalSpace: u64, availableSpace: u64, isRemovable: bool, mountPath: string)

  /** One network interface; `received`/`transmitted` are the deltas since the previous refresh. */
  datatype NetworkData = NetworkData(
    interfaceName: string, macAddress: string,
    received: u64, totalReceived: u64, totalPacketsReceived: u64,
    transmitted: u64, totalTransmitted: u64, totalPacketsTransmitted: u64)
}
