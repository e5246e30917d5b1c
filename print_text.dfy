/**
  The two print options `print_text` derives from a resolved context before
  handing the image to the raster encoder: the rotation and the red flag.
 */
module PrintText {
  import opened PyText
  import opened LabelContext

  /** The `rotate` argument of the encoder: a number of degrees, or `"auto"`. */
  datatype Rotate = Degrees(angle: int) | Auto

  /**
    Endless labels are sent unrotated in the standard orientation and turned
    by 90 degrees otherwise; die-cut labels leave the rotation to the encoder.
   */
  function PrintRotate(c: Context): (rot: Rotate)
    ensures rot == Auto <==> c.kind != Endless
    ensures rot == Degrees(0) <==> c.kind == Endless && c.orientation == "standard"
    ensures rot == Degrees(90) <==> c.kind == Endless && c.orientation != "standard"
  {
    match c.kind
    case Endless => Degrees(if c.orientation == "standard" then 0 else 90)
    case RoundDieCut => Auto
    case DieCut => Auto
  }

  /** The encoder prints in two colours exactly when the label size names `red`. */
  function PrintRed(c: Context): (red: bool)
    ensures red <==> exists i :: OccursAt(c.labelSize, "red", i)
  {
    ContainsIff(c.labelSize, "red");
    Contains(c.labelSize, "red")
  }

  /** Printing in red and previewing in red ink go together. */
  lemma PrintRedMatchesFillColor(c: Context)
    ensures PrintRed(c) <==> FillColor(c.labelSize) == RED
    ensures !PrintRed(c) <==> FillColor(c.labelSize) == BLACK
  {
    FillColorIsRedIff(c.labelSize);
  }
}
