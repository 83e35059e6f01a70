/** The process table (src/tui/components/process_table.rs): the latest process list, and
    the mapping of one process to the cells of a table row. */
module ProcessTableView {
  import opened Wrappers
  import opened SysData
  import opened Decimal
  import opened Collector
  import opened Actions

  /** `ProcessData::headers`. */
  function Headers(): seq<string> {
    ["PID", "Parent", "Name", "Status", "CPU Usage"]
  }

  /** `ProcessData::column_widths`: each a `Constraint::Length`. */
  function ColumnWidths(): seq<nat> {
    [4, 6, 12, 12, 10]
  }

  /** `From<ProcessData> for Row`, as its list of cells. The CPU cell is the `{:.3}`
      rendering of the usage, which `formatUsage` stands for. */
  function ProcessRow(p: ProcessData, formatUsage: real -> string): (cells: seq<string>)
    ensures |cells| == |Headers()| == |ColumnWidths()|
    ensures cells[0] == NatToString(p.pid)
    ensures cells[1] == if p.parent.None? then "-" else NatToString(p.parent.value)
    ensures cells[2] == p.name && cells[3] == p.status && cells[4] == formatUsage(p.cpuUsage)
  {
    [ NatToString(p.pid),
      match p.parent {
        case Some(q) => NatToString(q)
        case None => "-"
      },
      p.name,
      p.status,
      formatUsage(p.cpuUsage) ]
  }

  /** The pid and parent cells can be read back: the parent cell is "-" exactly when the
      parent is absent, and otherwise the decimal parent pid. */
  lemma ProcessRowReadsBack(p: ProcessData, formatUsage: real -> string)
    ensures var cells := ProcessRow(p, formatUsage);
      && AllDigits(cells[0]) && ParseDecimal(cells[0]) == p.pid
      && (cells[1] == "-" <==> p.parent.None?)
      && (p.parent.Some? ==> AllDigits(cells[1]) && ParseDecimal(cells[1]) == p.parent.value)
  {
    ParseNatToString(p.pid);
    if p.parent.Some? {
      ParseNatToString(p.parent.value);
      assert !IsDigit('-');
    }
  }

  class ProcessTable {
    var collectedData: seq<ProcessData>

    /** `ProcessTable::new`: no processes yet. */
    constructor ()
      ensures collectedData == []
    {
      collectedData := [];
    }

    /** `update_data_stats`: the new list replaces the old one. */
    method UpdateDataStats(newData: seq<ProcessData>)
      modifies this
      ensures collectedData == newData
    {
      collectedData := newData;
    }

    /** `Component::update`: a data update that carries processes replaces the list; any
        other action, or absent process data, leaves it. Always answers `Ok(None)`. */
    method Update(action: Action) returns (r: Option<Action>)
      modifies this
      ensures r == None
      ensures collectedData ==
        if action.DataUpdate? && action.data.processes.Some? then action.data.processes.value
        else old(collectedData)
    {
      if action.DataUpdate? {
        match action.data.processes {
          case Some(d) => UpdateDataStats(d);
          case None =>
        }
      }
      return None;
    }
  }
}
