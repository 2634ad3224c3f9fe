/** The behaviour of the Qt input widgets the pages rely on: a slider or
    spin box keeps its value within its range, and a non-editable combo box
    only ever shows one of its items. */
module Widgets {

  /** The inclusive range a slider or spin box accepts. */
  datatype Range = Range(lo: int, hi: int)

  predicate InRange(v: int, r: Range) {
    r.lo <= v <= r.hi
  }

  function Distance(a: int, b: int): nat {
    if a < b then b - a else a - b
  }

  /** Setting a slider or spin box to `v` leaves the value of its range
      nearest to `v`. */
  function Clamp(v: int, r: Range): (c: int)
    requires r.lo <= r.hi
    ensures InRange(c, r)
    ensures InRange(v, r) ==> c == v
    ensures forall x :: InRange(x, r) ==> Distance(c, v) <= Distance(x, v)
  {
    if v < r.lo then r.lo else if v > r.hi then r.hi else v
  }

  /** Setting the text of a non-editable combo box selects that item when it
      is listed; any other text leaves the current item selected. */
  function ComboSelect(items: seq<string>, text: string, current: string): (r: string)
    ensures text in items ==> r == text
    ensures text !in items ==> r == current
    ensures current in items ==> r in items
  {
    if text in items then text else current
  }
}
