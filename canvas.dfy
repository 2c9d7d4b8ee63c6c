/** The fixed drawing surface the runner plays on: an 800 by 300 canvas whose
    ground line is drawn 20 units above the bottom edge. */
module Canvas {
  const CANVAS_WIDTH: real := 800.0
  const CANVAS_HEIGHT: real := 300.0
  const GROUND_LINE: real := CANVAS_HEIGHT - 20.0
}
