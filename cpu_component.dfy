/** The CPU view model (src/tui/components/cpu.rs): one growing series of `(x, usage)` per
    core name, an update counter `points`, and the running maximum usage. */
module CpuView {
  import opened Wrappers
  import opened SysData
  import opened Collector
  import opened Actions

  const MAX_DATA_POINTS: nat := 50

  type Point = (real, real)
  type Groups = map<string, seq<Point>>

  /** `CpuStats`. */
  datatype CpuStats = CpuStats(maxUsage: real, minX: real, maxX: real, cpuGroups: Groups, points: nat)

  datatype CpuGraphType = LineChart | BarChart

  function RealMax(a: real, b: real): (m: real)
    ensures m >= a && m >= b && (m == a || m == b)
  {
    if a >= b then a else b
  }

  // ---------------------------------------------------------------------------
  // The effect of one update on the groups

  /** One reading: an existing core gets `(x, usage)` appended, a new core a group holding
      only `(0, usage)`. */
  function Record(groups: Groups, x: nat, d: CpuData): Groups {
    if d.cpuName in groups then groups[d.cpuName := groups[d.cpuName] + [(x as real, d.cpuUsage)]]
    else groups[d.cpuName := [(0.0, d.cpuUsage)]]
  }

  /** All readings of one update, in order, all at position `x`. */
  function ApplyReadings(groups: Groups, x: nat, data: seq<CpuData>): Groups
    decreases |data|
  {
    if data == [] then groups
    else Record(ApplyReadings(groups, x, data[..|data| - 1]), x, data[|data| - 1])
  }

  /** The usages reported for `name` in one update, in order. */
  function UsagesOf(name: string, data: seq<CpuData>): seq<real>
    decreases |data|
  {
    if data == [] then []
    else
      var d := data[|data| - 1];
      UsagesOf(name, data[..|data| - 1]) + (if d.cpuName == name then [d.cpuUsage] else [])
  }

  function PointsAt(x: nat, us: seq<real>): (ps: seq<Point>)
    ensures |ps| == |us| && forall i :: 0 <= i < |us| ==> ps[i] == (x as real, us[i])
  {
    seq(|us|, i requires 0 <= i < |us| => (x as real, us[i]))
  }

  /** What one update does to the group of any core `name`:
      - a known core gets one `(x, usage)` per reading appended, nothing removed;
      - a core seen for the first time starts at `(0, first usage)`, further readings of the
        same update follow at `x`;
      - a core not reported keeps its group (or stays absent). */
  lemma {:induction false} ApplyReadingsGroup(groups: Groups, x: nat, data: seq<CpuData>, name: string)
    ensures var r := ApplyReadings(groups, x, data); var us := UsagesOf(name, data);
      && (name in r <==> name in groups || us != [])
      && (name in groups ==> r[name] == groups[name] + PointsAt(x, us))
      && (name !in groups && us != [] ==> r[name] == [(0.0, us[0])] + PointsAt(x, us[1..]))
    decreases |data|
  {
    if data != [] {
      var init, d := data[..|data| - 1], data[|data| - 1];
      ApplyReadingsGroup(groups, x, init, name);
      var prev := ApplyReadings(groups, x, init);
      var usInit := UsagesOf(name, init);
      if d.cpuName == name {
        var us := usInit + [d.cpuUsage];
        assert UsagesOf(name, data) == us;
        assert PointsAt(x, us) == PointsAt(x, usInit) + [(x as real, d.cpuUsage)];
        if name !in groups && usInit != [] {
          assert us[1..] == usInit[1..] + [d.cpuUsage];
          assert PointsAt(x, us[1..]) == PointsAt(x, usInit[1..]) + [(x as real, d.cpuUsage)];
        }
      } else {
        assert UsagesOf(name, data) == usInit;
      }
    }
  }

  /** A core reported exactly once: a known core gains exactly `(points, usage)` at the back;
      a new core gets the single entry `(0, usage)`. */
  lemma SingleReading(groups: Groups, x: nat, data: seq<CpuData>, name: string, u: real)
    requires UsagesOf(name, data) == [u]
    ensures name in ApplyReadings(groups, x, data)
    ensures name in groups ==> ApplyReadings(groups, x, data)[name] == groups[name] + [(x as real, u)]
    ensures name !in groups ==> ApplyReadings(groups, x, data)[name] == [(0.0, u)]
  {
    ApplyReadingsGroup(groups, x, data, name);
    assert PointsAt(x, [u]) == [(x as real, u)];
    assert [u][1..] == [];
  }

  /** Groups only grow: every old group is a prefix of its new group. */
  lemma GroupsOnlyGrow(groups: Groups, x: nat, data: seq<CpuData>)
    ensures forall name :: name in groups ==>
      name in ApplyReadings(groups, x, data) &&
      groups[name] <= ApplyReadings(groups, x, data)[name]
  {
    forall name | name in groups
      ensures name in ApplyReadings(groups, x, data) && groups[name] <= ApplyReadings(groups, x, data)[name]
    {
      ApplyReadingsGroup(groups, x, data, name);
    }
  }

  // ---------------------------------------------------------------------------
  // Invariants of the statistics

  predicate GroupsNonEmpty(groups: Groups) {
    forall name :: name in groups ==> |groups[name]| > 0
  }

  /** Every stored usage is at most `ub` and every stored x lies in [0, xb]. */
  predicate GroupsBounded(groups: Groups, ub: real, xb: nat) {
    forall name, j :: name in groups && 0 <= j < |groups[name]| ==>
      groups[name][j].1 <= ub && 0.0 <= groups[name][j].0 <= xb as real
  }

  predicate UsagesAtMost(data: seq<CpuData>, ub: real) {
    forall i :: 0 <= i < |data| ==> data[i].cpuUsage <= ub
  }

  /** An update keeps every group non-empty and keeps stored values within bounds that
      cover the new readings. */
  lemma {:induction false} ApplyReadingsPreserves(groups: Groups, x: nat, data: seq<CpuData>, ub: real)
    requires GroupsNonEmpty(groups) && GroupsBounded(groups, ub, x) && UsagesAtMost(data, ub)
    ensures GroupsNonEmpty(ApplyReadings(groups, x, data))
    ensures GroupsBounded(ApplyReadings(groups, x, data), ub, x)
    decreases |data|
  {
    if data != [] {
      ApplyReadingsPreserves(groups, x, data[..|data| - 1], ub);
    }
  }

  lemma GroupsBoundedWeaken(groups: Groups, ub: real, xb: nat, ub': real, xb': nat)
    requires GroupsBounded(groups, ub, xb) && ub <= ub' && xb <= xb'
    ensures GroupsBounded(groups, ub', xb')
  {
  }

  /** The largest usage of one update, starting from 0 as `max_from_new_data` does. */
  function MaxOf(data: seq<CpuData>): real
    decreases |data|
  {
    if data == [] then 0.0 else RealMax(MaxOf(data[..|data| - 1]), data[|data| - 1].cpuUsage)
  }

  /** It is at least 0 and every reported usage, and is 0 or one of them. */
  lemma {:induction false} MaxOfBounds(data: seq<CpuData>)
    ensures MaxOf(data) >= 0.0 && UsagesAtMost(data, MaxOf(data))
    ensures MaxOf(data) == 0.0 || exists i :: 0 <= i < |data| && MaxOf(data) == data[i].cpuUsage
    decreases |data|
  {
    if data != [] {
      MaxOfBounds(data[..|data| - 1]);
    }
  }

  predicate StatsValid(s: CpuStats) {
    && s.minX == 0.0
    && s.maxX == s.points as real
    && s.maxUsage >= 0.0
    && GroupsNonEmpty(s.cpuGroups)
    && GroupsBounded(s.cpuGroups, s.maxUsage, s.points)
  }

  // ---------------------------------------------------------------------------
  // Chart views

  /** Rust's `Ord` on `String`: lexicographic (byte order of UTF-8 is code point order). */
  predicate LexLess(a: string, b: string)
    decreases |a|
  {
    |b| > 0 && (|a| == 0 || a[0] < b[0] || (a[0] == b[0] && LexLess(a[1..], b[1..])))
  }

  lemma {:induction false} LexLessAsymmetric(a: string, b: string)
    ensures LexLess(a, b) ==> !LexLess(b, a)
    decreases |a|
  {
    if |a| > 0 && |b| > 0 && a[0] == b[0] {
      LexLessAsymmetric(a[1..], b[1..]);
    }
  }

  lemma {:induction false} LexLessTransitive(a: string, b: string, c: string)
    ensures LexLess(a, b) && LexLess(b, c) ==> LexLess(a, c)
    decreases |a|
  {
    if |a| > 0 && |b| > 0 && |c| > 0 && a[0] == b[0] == c[0] {
      LexLessTransitive(a[1..], b[1..], c[1..]);
    }
  }

  lemma {:induction false} LexLessTotal(a: string, b: string)
    ensures a != b ==> LexLess(a, b) || LexLess(b, a)
    decreases |a|
  {
    if |a| > 0 && |b| > 0 && a[0] == b[0] {
      LexLessTotal(a[1..], b[1..]);
      assert a == [a[0]] + a[1..] && b == [b[0]] + b[1..];
    }
  }

  predicate IsLeast(m: string, s: set<string>) {
    m in s && forall k :: k in s && k != m ==> LexLess(m, k)
  }

  lemma {:induction false} LeastExists(s: set<string>)
    requires s != {}
    ensures exists m :: IsLeast(m, s)
    decreases |s|
  {
    var x :| x in s;
    if s == {x} {
      assert IsLeast(x, s);
    } else {
      assert exists y :: y in s && y != x;
      LeastExists(s - {x});
      var m :| IsLeast(m, s - {x});
      LexLessTotal(x, m);
      if LexLess(x, m) {
        forall k | k in s && k != x ensures LexLess(x, k) {
          if k != m {
            LexLessTransitive(x, m, k);
          }
        }
        assert IsLeast(x, s);
      } else {
        assert IsLeast(m, s);
      }
    }
  }

  lemma LeastUnique(s: set<string>)
    ensures forall m, m' :: IsLeast(m, s) && IsLeast(m', s) ==> m == m'
  {
    forall m, m' | IsLeast(m, s) && IsLeast(m', s) ensures m == m' {
      LexLessAsymmetric(m, m');
    }
  }

  /** The keys in ascending order (`sorted_by_key`). */
  function SortedKeys(s: set<string>): (r: seq<string>)
    ensures |r| == |s|
    ensures forall i :: 0 <= i < |r| ==> r[i] in s
    ensures forall k :: k in s ==> k in r
    ensures forall i, j :: 0 <= i < j < |r| ==> LexLess(r[i], r[j])
    decreases |s|
  {
    if s == {} then []
    else
      LeastExists(s);
      LeastUnique(s);
      var m :| IsLeast(m, s);
      [m] + SortedKeys(s - {m})
  }

  function Newest(group: seq<Point>): real
    requires |group| > 0
  {
    group[|group| - 1].1
  }

  function BarsOf(keys: seq<string>, groups: Groups): (bars: seq<(string, real)>)
    requires GroupsNonEmpty(groups) && forall i :: 0 <= i < |keys| ==> keys[i] in groups
    ensures |bars| == |keys| && forall i :: 0 <= i < |keys| ==> bars[i] == (keys[i], Newest(groups[keys[i]]))
  {
    seq(|keys|, i requires 0 <= i < |keys| => (keys[i], Newest(groups[keys[i]])))
  }

  /** `get_bar_chart_datasets`: one bar per core, ascending by name, showing the newest usage
      of that core. Every group is non-empty, so the source's `todo!` branch is unreachable. */
  function BarChartDatasets(groups: Groups): (bars: seq<(string, real)>)
    requires GroupsNonEmpty(groups)
    ensures |bars| == |groups|
    ensures forall i :: 0 <= i < |bars| ==> bars[i].0 in groups && bars[i].1 == Newest(groups[bars[i].0])
    ensures forall i, j :: 0 <= i < j < |bars| ==> LexLess(bars[i].0, bars[j].0)
    ensures forall name :: name in groups ==> exists i :: 0 <= i < |bars| && bars[i].0 == name
  {
    var keys := SortedKeys(groups.Keys);
    BarsCover(keys, groups);
    BarsOf(keys, groups)
  }

  /** Every key listed gets its bar. */
  lemma BarsCover(keys: seq<string>, groups: Groups)
    requires GroupsNonEmpty(groups) && forall i :: 0 <= i < |keys| ==> keys[i] in groups
    requires forall name :: name in groups ==> name in keys
    ensures var bars := BarsOf(keys, groups);
      forall name :: name in groups ==> exists i :: 0 <= i < |bars| && bars[i].0 == name
  {
    var bars := BarsOf(keys, groups);
    forall name | name in groups ensures exists i :: 0 <= i < |bars| && bars[i].0 == name {
      var i :| 0 <= i < |keys| && keys[i] == name;
      assert bars[i].0 == name;
    }
  }

  /** The line chart's x axis starts at `points - MAX_DATA_POINTS`, saturating at 0: it spans
      the newest `min(points, MAX_DATA_POINTS)` positions, ending at `points`. */
  function XLowerBound(points: nat): (lower: nat)
    ensures lower <= points
    ensures points - lower == if points < MAX_DATA_POINTS then points else MAX_DATA_POINTS
  {
    if points >= MAX_DATA_POINTS then points - MAX_DATA_POINTS else 0
  }

  // ---------------------------------------------------------------------------
  // The component

  class Cpu {
    var cpuStats: CpuStats
    var graphType: CpuGraphType

    ghost predicate Valid()
      reads this
    {
      StatsValid(cpuStats)
    }

    /** `Cpu::new`: no groups, no points, bar chart selected. */
    constructor ()
      ensures Valid() && cpuStats == CpuStats(0.0, 0.0, 0.0, map[], 0) && graphType == BarChart
    {
      cpuStats := CpuStats(0.0, 0.0, 0.0, map[], 0);
      graphType := BarChart;
    }

    /** `update_data_stats`: count one more point, record every reading, and raise the
        running maximum; `max_x` follows `points`. */
    method UpdateDataStats(newData: seq<CpuData>)
      requires Valid()
      modifies this
      ensures Valid() && graphType == old(graphType)
      ensures cpuStats.points == old(cpuStats.points) + 1
      ensures cpuStats.cpuGroups == ApplyReadings(old(cpuStats.cpuGroups), cpuStats.points, newData)
      ensures cpuStats.maxUsage == RealMax(MaxOf(newData), old(cpuStats.maxUsage))
      ensures cpuStats.maxUsage >= old(cpuStats.maxUsage) && UsagesAtMost(newData, cpuStats.maxUsage)
      ensures cpuStats.maxX == cpuStats.points as real && cpuStats.minX == old(cpuStats.minX)
    {
      ghost var oldGroups := cpuStats.cpuGroups;
      ghost var oldMax := cpuStats.maxUsage;

      // max_x starts at NEG_INFINITY and is raised to `points`
      var maxFromNewData: real := 0.0;

      cpuStats := cpuStats.(points := cpuStats.points + 1);
      var maxX: real := cpuStats.points as real;

      var i := 0;
      while i < |newData|
        invariant 0 <= i <= |newData|
        invariant cpuStats.points == old(cpuStats.points) + 1
        invariant cpuStats.maxUsage == oldMax && cpuStats.maxX == old(cpuStats.maxX)
        invariant cpuStats.minX == old(cpuStats.minX) && graphType == old(graphType)
        invariant cpuStats.cpuGroups == ApplyReadings(oldGroups, cpuStats.points, newData[..i])
        invariant maxFromNewData == MaxOf(newData[..i])
      {
        var data := newData[i];
        assert newData[..i + 1][..i] == newData[..i];
        maxFromNewData := RealMax(maxFromNewData, data.cpuUsage);

        if data.cpuName in cpuStats.cpuGroups {
          var xPos := cpuStats.points;
          var existing := cpuStats.cpuGroups[data.cpuName];
          cpuStats := cpuStats.(cpuGroups := cpuStats.cpuGroups[data.cpuName := existing + [(xPos as real, data.cpuUsage)]]);
        } else {
          cpuStats := cpuStats.(cpuGroups := cpuStats.cpuGroups[data.cpuName := [(0.0, data.cpuUsage)]]);
        }
        i := i + 1;
      }
      assert newData[..i] == newData;

      cpuStats := cpuStats.(maxUsage := RealMax(maxFromNewData, cpuStats.maxUsage));
      cpuStats := cpuStats.(maxX := RealMax(maxX, cpuStats.maxX));

      MaxOfBounds(newData);
      GroupsBoundedWeaken(oldGroups, oldMax, old(cpuStats.points), cpuStats.maxUsage, cpuStats.points);
      ApplyReadingsPreserves(oldGroups, cpuStats.points, newData, cpuStats.maxUsage);
    }

    /** `Component::update`: only a data update carrying CPU data changes the statistics. */
    method Update(action: Action) returns (r: Option<Action>)
      requires Valid()
      modifies this
      ensures Valid() && r == None
      ensures !(action.DataUpdate? && action.data.cpu.Some?) ==> unchanged(this)
      ensures action.DataUpdate? && action.data.cpu.Some? ==>
        && cpuStats.points == old(cpuStats.points) + 1
        && cpuStats.cpuGroups == ApplyReadings(old(cpuStats.cpuGroups), cpuStats.points, action.data.cpu.value)
        && cpuStats.maxUsage == RealMax(MaxOf(action.data.cpu.value), old(cpuStats.maxUsage))
        && cpuStats.maxX == cpuStats.points as real && cpuStats.minX == old(cpuStats.minX)
        && graphType == old(graphType)
    {
      if action.DataUpdate? {
        match action.data.cpu {
          case Some(d) => UpdateDataStats(d);
          case None =>
        }
      }
      return None;
    }
  }
}
