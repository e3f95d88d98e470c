/**
  * The browser's 2D drawing context, reduced to what the banner code uses:
  * the drawing state it assigns (fill and stroke colour, line width, font,
  * text alignment and baseline) and the ordered list of drawing commands it
  * issues. Pixels are not rasterised; text widths come from a metrics
  * function supplied from outside.
  */
module Canvas {
  import opened Wrappers
  import opened Geometry

  /** A positive pixel count. */
  type Pixels = n: int | n > 0 witness 1

  /** A decoded raster image: where it was loaded from and its natural size. */
  datatype Image = Image(source: string, width: Pixels, height: Pixels)

  /** A CSS font: size in pixels and family list. */
  datatype Font = Font(sizePx: int, family: string)

  datatype TextAlign = Start | Left | Center

  datatype TextBaseline = Alphabetic | Middle

  /** The context attributes the banner code assigns before it draws. */
  datatype DrawingState = DrawingState(
    fillStyle: string,
    strokeStyle: string,
    lineWidth: real,
    font: Font,
    textAlign: TextAlign,
    textBaseline: TextBaseline)

  /** The attributes a line of text is drawn with. */
  datatype TextStyle = TextStyle(colour: string, font: Font, align: TextAlign, baseline: TextBaseline)

  /** The text attributes of a drawing state. */
  function TextStyleOf(st: DrawingState): TextStyle
  {
    TextStyle(st.fillStyle, st.font, st.textAlign, st.textBaseline)
  }

  /** The attributes of a freshly created context ("10px sans-serif", black, start, alphabetic). */
  const INITIAL_STATE := DrawingState("#000000", "#000000", 1.0, Font(10, "sans-serif"), Start, Alphabetic)

  /** One drawing operation, with the attributes it was drawn with. */
  datatype DrawCmd =
    | Clear(area: Rect)
    | Fill(area: Rect, colour: string)
    | Stroke(area: Rect, colour: string, lineWidth: real)
    | Text(text: string, x: real, y: real, style: TextStyle)
    | Picture(image: Image, source: Option<Rect>, dest: Rect)

  /** The width measureText reports for a string set in a font. */
  type Metrics = (Font, string) -> real

  /** Text measurement in one fixed font. */
  function MeasureIn(metrics: Metrics, font: Font): string -> real
  {
    s => metrics(font, s)
  }

  class Context {
    const metrics: Metrics
    var state: DrawingState
    var commands: seq<DrawCmd>

    constructor (metrics: Metrics)
      ensures this.metrics == metrics && state == INITIAL_STATE && commands == []
    {
      this.metrics := metrics;
      state := INITIAL_STATE;
      commands := [];
    }

    /** `clearRect(x, y, w, h)`. */
    method ClearRect(area: Rect)
      modifies this
      ensures state == old(state)
      ensures commands == old(commands) + [Clear(area)]
    {
      commands := commands + [Clear(area)];
    }

    /** `fillRect(x, y, w, h)` in the current fill colour. */
    method FillRect(area: Rect)
      modifies this
      ensures state == old(state)
      ensures commands == old(commands) + [Fill(area, state.fillStyle)]
    {
      commands := commands + [Fill(area, state.fillStyle)];
    }

    /** `strokeRect(x, y, w, h)` in the current stroke colour and line width. */
    method StrokeRect(area: Rect)
      modifies this
      ensures state == old(state)
      ensures commands == old(commands) + [Stroke(area, state.strokeStyle, state.lineWidth)]
    {
      commands := commands + [Stroke(area, state.strokeStyle, state.lineWidth)];
    }

    /** `fillText(text, x, y)` in the current fill colour, font, alignment and baseline. */
    method FillText(text: string, x: real, y: real)
      modifies this
      ensures state == old(state)
      ensures commands == old(commands) + [Text(text, x, y, TextStyleOf(state))]
    {
      commands := commands + [Text(text, x, y, TextStyleOf(state))];
    }

    /**
      * `drawImage(image, dx, dy, dw, dh)` when `source` is None, and the
      * nine-argument form that draws only the `source` part of the image.
      */
    method DrawImage(image: Image, source: Option<Rect>, dest: Rect)
      modifies this
      ensures state == old(state)
      ensures commands == old(commands) + [Picture(image, source, dest)]
    {
      commands := commands + [Picture(image, source, dest)];
    }
  }
}
