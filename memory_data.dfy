/** `MemoryData` and its usage percentages (src/data_services/memory.rs). */
module Memory {
  import opened SysData

  datatype MemoryData = MemoryData(freeRam: u64, totalRam: u64, freeSwap: u64, totalSwap: u64)

  /** An `f64` result of the division as the source computes it: a finite value, or the NaN
      that `0.0 / 0.0` yields. */
  datatype Float = Finite(value: real) | NaN

  /** One percentage exactly as `usage_percentages` computes it: `(total - free) / total * 100`
      with no guard for `total == 0`. The `u64` subtraction underflows unless `free <= total`. */
  function PercentageAsWritten(free: u64, total: u64): (p: Float)
    requires free <= total
    ensures p.NaN? <==> total == 0
    ensures p.Finite? ==> p.value * (total as real) == ((total - free) as real) * 100.0
    ensures p.Finite? ==> 0.0 <= p.value <= 100.0
  {
    var used := total - free;
    // total == 0 forces used == 0, and 0.0 / 0.0 is NaN
    if total == 0 then NaN
    else
      assert used as real / total as real <= 1.0 by {
        assert (used as real) <= (total as real);
      }
      Finite((used as real / total as real) * 100.0)
  }

  /** `MemoryData::usage_percentages` as written: (RAM, swap). A figure is NaN exactly when
      its total is zero; otherwise it is the used share of the total, in [0, 100]. */
  function UsagePercentagesAsWritten(m: MemoryData): (r: (Float, Float))
    requires m.freeRam <= m.totalRam && m.freeSwap <= m.totalSwap
    ensures r.0.NaN? <==> m.totalRam == 0
    ensures r.1.NaN? <==> m.totalSwap == 0
    ensures r.0.Finite? ==> 0.0 <= r.0.value <= 100.0
    ensures r.0.Finite? ==> r.0.value * (m.totalRam as real) == ((m.totalRam - m.freeRam) as real) * 100.0
    ensures r.1.Finite? ==> 0.0 <= r.1.value <= 100.0
    ensures r.1.Finite? ==> r.1.value * (m.totalSwap as real) == ((m.totalSwap - m.freeSwap) as real) * 100.0
  {
    (PercentageAsWritten(m.freeRam, m.totalRam), PercentageAsWritten(m.freeSwap, m.totalSwap))
  }

  /** A host without swap reports `total_swap == 0`; the swap figure is then NaN. */
  lemma SwaplessHostGivesNaN()
    ensures UsagePercentagesAsWritten(MemoryData(1024, 4096, 0, 0)).1 == NaN
    ensures UsagePercentagesAsWritten(MemoryData(1024, 4096, 0, 0)).0 == Finite(75.0)
  {
  }

  /** One percentage with the missing guard added: 0 when `total == 0`. */
  function Percentage(free: u64, total: u64): (p: real)
    requires free <= total
    ensures 0.0 <= p <= 100.0
    ensures total == 0 ==> p == 0.0
    ensures total > 0 ==> PercentageAsWritten(free, total) == Finite(p)
    ensures free == total ==> p == 0.0
    ensures free == 0 && total > 0 ==> p == 100.0
  {
    if total == 0 then 0.0
    else
      var used := total - free;
      assert used as real / total as real <= 1.0 by {
        assert (used as real) <= (total as real);
      }
      (used as real / total as real) * 100.0
  }

  /** `usage_percentages` with the guard: (RAM, swap), each in [0, 100]. */
  function UsagePercentages(m: MemoryData): (r: (real, real))
    requires m.freeRam <= m.totalRam && m.freeSwap <= m.totalSwap
    ensures 0.0 <= r.0 <= 100.0 && 0.0 <= r.1 <= 100.0
    ensures m.totalRam > 0 ==> UsagePercentagesAsWritten(m).0 == Finite(r.0)
    ensures m.totalSwap > 0 ==> UsagePercentagesAsWritten(m).1 == Finite(r.1)
    ensures m.totalRam == 0 ==> r.0 == 0.0
    ensures m.totalSwap == 0 ==> r.1 == 0.0
  {
    (Percentage(m.freeRam, m.totalRam), Percentage(m.freeSwap, m.totalSwap))
  }
}
