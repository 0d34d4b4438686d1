/** The meaning of a metro station's status code, shared by the list widget
    and the map: 0 operational, 1 temporarily closed, 2 not enabled, 3
    accesses closed, anything else unknown. Each widget spells the colour
    class its own way; both are built on the hue given here. */
module StationStatus {

  /** The colour family a status is drawn in. */
  function Hue(status: int): (h: string)
    ensures h == "gray" <==> !(0 <= status <= 3)
  {
    if status == 0 then "green"
    else if status == 1 then "yellow"
    else if status == 2 then "red"
    else if status == 3 then "orange"
    else "gray"
  }

  /** The four known statuses have four different hues. */
  lemma HueTellsStatus(a: int, b: int)
    requires 0 <= a <= 3 && 0 <= b <= 3
    ensures Hue(a) == Hue(b) <==> a == b
  {
  }
}
