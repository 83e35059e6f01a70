/** The memory view model (src/tui/components/memory.rs): two windows of at most
    `WINDOW_SIZE` entries `(x, percent)`, and the latest totals. */
module MemoryView {
  import opened Wrappers
  import opened SysData
  import opened Memory
  import opened Window
  import opened Actions

  const WINDOW_SIZE: nat := 10

  class MemoryComponent {
    var availableRam: seq<(real, real)>
    var availableSwap: seq<(real, real)>
    var totalRam: u64
    var totalSwap: u64

    ghost predicate Valid()
      reads this
    {
      |availableRam| <= WINDOW_SIZE && |availableSwap| <= WINDOW_SIZE
    }

    /** `MemoryComponent::new`: both windows empty, totals 0. */
    constructor ()
      ensures Valid()
      ensures availableRam == [] && availableSwap == [] && totalRam == 0 && totalSwap == 0
    {
      availableRam := [];
      availableSwap := [];
      totalRam := 0;
      totalSwap := 0;
    }

    /** `update_data_stats`: overwrite the totals, then push the RAM and the swap percentage,
        each window on its own, dropping its front entry first when it is full. */
    method UpdateDataStats(newData: MemoryData)
      requires Valid()
      requires newData.freeRam <= newData.totalRam && newData.freeSwap <= newData.totalSwap
      modifies this
      ensures Valid()
      ensures totalRam == newData.totalRam && totalSwap == newData.totalSwap
      ensures availableRam == PushPoint(old(availableRam), WINDOW_SIZE, UsagePercentages(newData).0)
      ensures availableSwap == PushPoint(old(availableSwap), WINDOW_SIZE, UsagePercentages(newData).1)
    {
      totalRam := newData.totalRam;
      totalSwap := newData.totalSwap;

      var (ramPercent, swapPercent) := UsagePercentages(newData);

      if |availableRam| == WINDOW_SIZE {
        availableRam := availableRam[1..];
      }
      availableRam := availableRam + [(|availableRam| as real, ramPercent)];

      if |availableSwap| == WINDOW_SIZE {
        availableSwap := availableSwap[1..];
      }
      availableSwap := availableSwap + [(|availableSwap| as real, swapPercent)];
    }

    /** `Component::update`: only a data update changes state, and only when it carries
        memory data. The source reads a `memory` field that the snapshot record does not
        declare; that field is passed here as `memory`. */
    method Update(action: Action, memory: Option<MemoryData>) returns (r: Option<Action>)
      requires Valid()
      requires memory.Some? ==> memory.value.freeRam <= memory.value.totalRam && memory.value.freeSwap <= memory.value.totalSwap
      modifies this
      ensures Valid() && r == None
      ensures !(action.DataUpdate? && memory.Some?) ==> unchanged(this)
      ensures action.DataUpdate? && memory.Some? ==>
        && totalRam == memory.value.totalRam && totalSwap == memory.value.totalSwap
        && availableRam == PushPoint(old(availableRam), WINDOW_SIZE, UsagePercentages(memory.value).0)
        && availableSwap == PushPoint(old(availableSwap), WINDOW_SIZE, UsagePercentages(memory.value).1)
    {
      if action.DataUpdate? {
        match memory {
          case Some(d) => UpdateDataStats(d);
          case None =>
        }
      }
      return None;
    }
  }
}
