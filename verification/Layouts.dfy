/** Timestamp parsing (internal/bluelink/status.go, internal/bluelink/parse_ccs2.go). Go's layout
    parser itself is a parameter: one partial function from text to an instant per layout. */
module Layouts {
  import opened Wrappers

  datatype Layouts = Layouts(
    compact: string -> Option<int>, // 20060102150405
    rfc3339: string -> Option<int>,
    spaced: string -> Option<int>)  // 2006-01-02 15:04:05

  function ParseBluelinkTime(layouts: Layouts, s: string): Option<int> {
    if s == "" then None
    else if layouts.compact(s).Some? then layouts.compact(s)
    else layouts.rfc3339(s)
  }

  function ParseCCS2Date(layouts: Layouts, s: string): Option<int> {
    if s == "" then None
    else if layouts.rfc3339(s).Some? then layouts.rfc3339(s)
    else if layouts.compact(s).Some? then layouts.compact(s)
    else layouts.spaced(s)
  }
}
