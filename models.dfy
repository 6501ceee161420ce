/**
 * The records the drawing screen works with: the tool selection, a
 * committed stroke, and the two drafting tools whose position and rotation
 * the screen moves in place.
 */
module Models {
  import opened Geometry

  /** The five tools; PAN only moves and zooms the canvas. */
  datatype Tool = Pen | Ruler | SetSquare | Protractor | Pan {
    /** The tools whose drags draw strokes. */
    predicate Draws() { this == Pen || this == Ruler || this == SetSquare }
  }

  /** A colour as its 32-bit ARGB value. */
  datatype Color = Color(argb: bv32)

  const Black: Color := Color(0xFF00_0000)
  const DarkGray: Color := Color(0xFF44_4444)
  const Blue: Color := Color(0xFF00_00FF)

  /** A committed polyline in world space with its style; compared by value. */
  datatype StrokeData = StrokeData(points: seq<Offset>, color: Color := Black, widthPx: real := 6.0)

  /** Every tool is exactly one of a drawing tool, the protractor and PAN. */
  lemma ToolCases(t: Tool)
    ensures t.Draws() || t == Protractor || t == Pan
    ensures t.Draws() ==> t != Protractor && t != Pan
    ensures t.Draws() <==> t == Pen || t == Ruler || t == SetSquare
  {
  }

  /** A stroke built from points alone is black and 6 pixels wide; strokes are equal when their parts are. */
  lemma StrokeDefaults(points: seq<Offset>, a: StrokeData, b: StrokeData)
    ensures StrokeData(points).color == Black && StrokeData(points).widthPx == 6.0
    ensures a == b <==> a.points == b.points && a.color == b.color && a.widthPx == b.widthPx
  {
  }

  /** The ruler: an edge through `center` at `rotationDeg`. */
  class RulerState {
    var center: Offset
    var rotationDeg: real
    var lengthPx: real

    constructor (center: Offset := Zero, rotationDeg: real := 0.0, lengthPx: real := 800.0)
      ensures this.center == center && this.rotationDeg == rotationDeg && this.lengthPx == lengthPx
    {
      this.center := center;
      this.rotationDeg := rotationDeg;
      this.lengthPx := lengthPx;
    }
  }

  /** The set square: an edge through `center` at `rotationDeg`, a 45 or a 30/60 square. */
  class SetSquareState {
    var center: Offset
    var rotationDeg: real
    var is45: bool

    constructor (center: Offset := Zero, rotationDeg: real := 0.0, is45: bool := true)
      ensures this.center == center && this.rotationDeg == rotationDeg && this.is45 == is45
    {
      this.center := center;
      this.rotationDeg := rotationDeg;
      this.is45 := is45;
    }
  }
}
