/** The corner-count classifier of detect_shapes_and_dimensions. */
module ShapeClassifier {

  datatype ShapeKind = Triangle | Rectangle | Square | Pentagon | Hexagon | Heptagon | Octagon | Circle | Unknown

  /** The text drawn next to a shape, spelled as the program spells it. */
  function Label(k: ShapeKind): (text: string)
    ensures text == "Square" <==> k == Square
    ensures text == "Heptagone" <==> k == Heptagon
    ensures text == "Octagone" <==> k == Octagon
  {
    match k
    case Triangle => "Triangle"
    case Rectangle => "Rectangle"
    case Square => "Square"
    case Pentagon => "Pentagon"
    case Hexagon => "Hexagon"
    case Heptagon => "Heptagone"
    case Octagon => "Octagone"
    case Circle => "Circle"
    case Unknown => "Unknown"
  }

  /** The vertex count a polygon kind stands for; 0 for the kinds that name no count. */
  function PolygonCorners(k: ShapeKind): nat
  {
    match k
    case Triangle => 3
    case Rectangle => 4
    case Square => 4
    case Pentagon => 5
    case Hexagon => 6
    case Heptagon => 7
    case Octagon => 8
    case Circle => 0
    case Unknown => 0
  }

  /**
    The if/elif chain, first match wins. The second test of corners == 4 can
    never be reached, so no polygon is ever called a Square.
   */
  function Classify(corners: nat): (k: ShapeKind)
    ensures k != Square
    ensures k == Unknown <==> corners < 3
    ensures k == Circle <==> corners > 8
    ensures 3 <= corners <= 8 ==> PolygonCorners(k) == corners
  {
    if corners == 3 then Triangle
    else if corners == 4 then Rectangle
    else if corners == 4 then Square
    else if corners == 5 then Pentagon
    else if corners == 6 then Hexagon
    else if corners == 7 then Heptagon
    else if corners == 8 then Octagon
    else if corners > 8 then Circle
    else Unknown
  }

  /** The labels a corner count produces, misspellings included. */
  lemma ClassifyLabels(corners: nat)
    ensures corners == 3 ==> Label(Classify(corners)) == "Triangle"
    ensures corners == 4 ==> Label(Classify(corners)) == "Rectangle"
    ensures corners == 5 ==> Label(Classify(corners)) == "Pentagon"
    ensures corners == 6 ==> Label(Classify(corners)) == "Hexagon"
    ensures corners == 7 ==> Label(Classify(corners)) == "Heptagone"
    ensures corners == 8 ==> Label(Classify(corners)) == "Octagone"
    ensures corners > 8 ==> Label(Classify(corners)) == "Circle"
    ensures corners < 3 ==> Label(Classify(corners)) == "Unknown"
  {
  }

  /** Distinct kinds are drawn with distinct labels. */
  lemma LabelInjective(a: ShapeKind, b: ShapeKind)
    requires Label(a) == Label(b)
    ensures a == b
  {
  }

  /** No corner count is labelled "Square". */
  lemma SquareUnreachable(corners: nat)
    ensures Label(Classify(corners)) != "Square"
  {
  }
}
