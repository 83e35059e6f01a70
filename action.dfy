/** The actions the render layer routes to components. src/tui/action.rs is not part of this
    model; only the variant the components react to is kept, the others are one `Other`. */
module Actions {
  import opened Collector

  datatype Action = DataUpdate(data: DataCollected) | Other
}
