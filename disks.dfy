/** The disk table (src/tui/components/disks.rs): the latest disk list, and the mapping of one
    disk to the cells of a table row. */
module DiskTableView {
  import opened Wrappers
  import opened SysData
  import opened Decimal
  import opened Collector
  import opened Actions

  /** `DiskData::headers`. */
  function Headers(): seq<string> {
    ["Name", "Kind", "File System", "Total (bytes)", "Available (bytes)", "IsRemovable", "Mount"]
  }

  /** `DiskData::column_widths`: each a `Constraint::Length`. */
  function ColumnWidths(): seq<nat> {
    [12, 6, 12, 12, 12, 6, 12]
  }

  /** `bool::to_string`. */
  function BoolToString(b: bool): string {
    if b then "true" else "false"
  }

  /** `From<DiskData> for Row`, as its list of cells. */
  function DiskRow(d: DiskData): (cells: seq<string>)
    ensures |cells| == |Headers()| == |ColumnWidths()|
    ensures cells[0] == d.name && cells[1] == d.kind && cells[2] == d.fileSystem && cells[6] == d.mountPath
    ensures cells[3] == NatToString(d.totalSpace) && cells[4] == NatToString(d.availableSpace)
    ensures cells[5] == BoolToString(d.isRemovable)
  {
    [d.name, d.kind, d.fileSystem, NatToString(d.totalSpace), NatToString(d.availableSpace),
     BoolToString(d.isRemovable), d.mountPath]
  }

  /** The numeric and flag cells can be read back to the disk's values. */
  lemma DiskRowReadsBack(d: DiskData)
    ensures var cells := DiskRow(d);
      && AllDigits(cells[3]) && ParseDecimal(cells[3]) == d.totalSpace
      && AllDigits(cells[4]) && ParseDecimal(cells[4]) == d.availableSpace
      && (cells[5] == "true" <==> d.isRemovable) && (cells[5] == "false" <==> !d.isRemovable)
  {
    ParseNatToString(d.totalSpace);
    ParseNatToString(d.availableSpace);
  }

  class DiskTable {
    var collectedData: seq<DiskData>

    /** `DiskTable::new`: no disks yet. */
    constructor ()
      ensures collectedData == []
    {
      collectedData := [];
    }

    /** `update_data_stats`: the new list replaces the old one. */
    method UpdateDataStats(newData: seq<DiskData>)
      modifies this
      ensures collectedData == newData
    {
      collectedData := newData;
    }

    /** `Component::update`: a data update that carries disks replaces the list; any other
        action, or absent disk data, leaves it. Always answers `Ok(None)`. */
    method Update(action: Action) returns (r: Option<Action>)
      modifies this
      ensures r == None
      ensures collectedData ==
        if action.DataUpdate? && action.data.disk.Some? then action.data.disk.value
        else old(collectedData)
    {
      if action.DataUpdate? {
        match action.data.disk {
          case Some(d) => UpdateDataStats(d);
          case None =>
        }
      }
      return None;
    }
  }
}
