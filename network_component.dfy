/** The network view model (src/tui/components/network.rs): windows of at most 25 summed
    deltas, and totals that each update replaces. */
module NetworkView {
  import opened Wrappers
  import opened SysData
  import opened Collector
  import opened Window
  import opened Actions

  const WINDOW_SIZE: nat := 25

  function Sum(xs: seq<nat>): nat {
    if xs == [] then 0 else Sum(xs[..|xs| - 1]) + xs[|xs| - 1]
  }

  lemma {:induction false} SumAppend(a: seq<nat>, b: seq<nat>)
    ensures Sum(a + b) == Sum(a) + Sum(b)
    decreases |b|
  {
    if b == [] {
      assert a + b == a;
    } else {
      assert (a + b)[..|a + b| - 1] == a + b[..|b| - 1];
      SumAppend(a, b[..|b| - 1]);
    }
  }

  function ReceivedDeltas(ns: seq<NetworkData>): (r: seq<nat>)
    ensures |r| == |ns| && forall i :: 0 <= i < |ns| ==> r[i] == ns[i].received
  {
    seq(|ns|, i requires 0 <= i < |ns| => ns[i].received as nat)
  }

  function TransmittedDeltas(ns: seq<NetworkData>): (r: seq<nat>)
    ensures |r| == |ns| && forall i :: 0 <= i < |ns| ==> r[i] == ns[i].transmitted
  {
    seq(|ns|, i requires 0 <= i < |ns| => ns[i].transmitted as nat)
  }

  function ReceivedTotals(ns: seq<NetworkData>): (r: seq<nat>)
    ensures |r| == |ns| && forall i :: 0 <= i < |ns| ==> r[i] == ns[i].totalReceived
  {
    seq(|ns|, i requires 0 <= i < |ns| => ns[i].totalReceived as nat)
  }

  function TransmittedTotals(ns: seq<NetworkData>): (r: seq<nat>)
    ensures |r| == |ns| && forall i :: 0 <= i < |ns| ==> r[i] == ns[i].totalTransmitted
  {
    seq(|ns|, i requires 0 <= i < |ns| => ns[i].totalTransmitted as nat)
  }

  /** The four `u64` sums of an update stay in range (the source's `sum()` would overflow). */
  predicate SumsFit(ns: seq<NetworkData>) {
    && Sum(ReceivedDeltas(ns)) < U64_LIMIT && Sum(TransmittedDeltas(ns)) < U64_LIMIT
    && Sum(ReceivedTotals(ns)) < U64_LIMIT && Sum(TransmittedTotals(ns)) < U64_LIMIT
  }

  /** The worked example: interface deltas 5, 10 and 0 give a window entry of 15. */
  lemma ReceivedSumExample(a: NetworkData, b: NetworkData, c: NetworkData)
    requires a.received == 5 && b.received == 10 && c.received == 0
    ensures Sum(ReceivedDeltas([a, b, c])) == 15
  {
    assert ReceivedDeltas([a, b, c]) == [5, 10, 0];
    assert [5, 10, 0][..2] == [5, 10];
    assert [5, 10][..1] == [5];
  }

  /** The received sum over several interfaces splits over any partition of the list. */
  lemma ReceivedSumSplits(ns: seq<NetworkData>, ms: seq<NetworkData>)
    ensures Sum(ReceivedDeltas(ns + ms)) == Sum(ReceivedDeltas(ns)) + Sum(ReceivedDeltas(ms))
  {
    assert ReceivedDeltas(ns + ms) == ReceivedDeltas(ns) + ReceivedDeltas(ms);
    SumAppend(ReceivedDeltas(ns), ReceivedDeltas(ms));
  }

  class NetworkComponent {
    var received: seq<u64>
    var transmitted: seq<u64>
    var totalTransmitted: u64
    var totalReceived: u64

    ghost predicate Valid()
      reads this
    {
      |received| <= WINDOW_SIZE && |transmitted| <= WINDOW_SIZE
    }

    /** `NetworkComponent::new`: empty windows, zero totals. */
    constructor ()
      ensures Valid()
      ensures received == [] && transmitted == [] && totalTransmitted == 0 && totalReceived == 0
    {
      received := [];
      transmitted := [];
      totalTransmitted := 0;
      totalReceived := 0;
    }

    /** `update_data_stats`: push the summed received and transmitted deltas into their
        windows (popping the front of a full one first) and replace the totals by the sums
        of the interfaces' totals. */
    method UpdateDataStats(newData: seq<NetworkData>)
      requires Valid() && SumsFit(newData)
      modifies this
      ensures Valid()
      ensures received == PushValue(old(received), WINDOW_SIZE, Sum(ReceivedDeltas(newData)))
      ensures transmitted == PushValue(old(transmitted), WINDOW_SIZE, Sum(TransmittedDeltas(newData)))
      ensures totalReceived == Sum(ReceivedTotals(newData))
      ensures totalTransmitted == Sum(TransmittedTotals(newData))
    {
      var receivedDeltas := ReceivedDeltas(newData);
      if |received| == WINDOW_SIZE {
        received := received[1..];
      }
      received := received + [Sum(receivedDeltas)];

      var transmittedDeltas := TransmittedDeltas(newData);
      if |transmitted| == WINDOW_SIZE {
        transmitted := transmitted[1..];
      }
      transmitted := transmitted + [Sum(transmittedDeltas)];

      totalTransmitted := Sum(TransmittedTotals(newData));
      totalReceived := Sum(ReceivedTotals(newData));
    }

    /** `Component::update`: only a data update that carries network data changes state. */
    method Update(action: Action) returns (r: Option<Action>)
      requires Valid()
      requires action.DataUpdate? && action.data.networks.Some? ==> SumsFit(action.data.networks.value)
      modifies this
      ensures Valid() && r == None
      ensures !(action.DataUpdate? && action.data.networks.Some?) ==> unchanged(this)
      ensures action.DataUpdate? && action.data.networks.Some? ==>
        var ns := action.data.networks.value;
        && received == PushValue(old(received), WINDOW_SIZE, Sum(ReceivedDeltas(ns)))
        && transmitted == PushValue(old(transmitted), WINDOW_SIZE, Sum(TransmittedDeltas(ns)))
        && totalReceived == Sum(ReceivedTotals(ns))
        && totalTransmitted == Sum(TransmittedTotals(ns))
    {
      if action.DataUpdate? {
        match action.data.networks {
          case Some(d) => UpdateDataStats(d);
          case None =>
        }
      }
      return None;
    }
  }
}
