/**
 * Values shared by the server and the browser client of the collaborative
 * canvas: points, strokes and committed drawing operations.
 *
 * Coordinates, colours, connection ids and clock readings are carried around
 * but never computed on, so they are kept as plain values.
 */
module Drawing {

  datatype Option<+T> = None | Some(value: T)

  /** A socket.io connection id; it doubles as the participant's user id. */
  type UserId = string

  /** A CSS colour such as "#FF6B6B". */
  type Color = string

  /** A reading of the server clock (milliseconds since the epoch). */
  type Timestamp = int

  datatype Tool = Brush | Eraser

  /** A pointer position on the canvas, already scaled to canvas pixels. */
  datatype Position = Position(x: real, y: real)

  /** One sampled point of a stroke, with the pen settings in force when it was taken. */
  datatype Point = Point(x: real, y: real, color: Color, width: int, tool: Tool)

  /** One continuous line, points in drawing order. */
  type Stroke = seq<Point>

  /**
   * A committed stroke. The server stamps every operation it creates; the
   * records a client builds from a `remote_stroke_end` message carry no
   * timestamp, which is why it is optional.
   */
  datatype Operation = Operation(id: nat, stroke: Stroke, userId: UserId, timestamp: Option<Timestamp>)
}
