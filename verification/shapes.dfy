/**
 * The shapes of the activity: the two shape kinds and three colours, a shape
 * placed on the playground, and a house made of a body and a roof.
 */
module Shapes {

  datatype ShapeType = Square | Triangle

  datatype ShapeColor = Red | Blue | Yellow

  /** The colour's name as the application writes it. */
  function ColorName(c: ShapeColor): string {
    match c
    case Red => "red"
    case Blue => "blue"
    case Yellow => "yellow"
  }

  /** What is dragged: a kind and a colour. */
  datatype ShapeConfig = ShapeConfig(kind: ShapeType, color: ShapeColor)

  /** A shape with an identity and a position (pixels, modelled as integers). */
  datatype PlacedShape = PlacedShape(id: string, kind: ShapeType, color: ShapeColor, top: int, left: int)

  /** A finished house; also the element type of a child's saved history. */
  datatype House = House(body: PlacedShape, roof: PlacedShape)
}
