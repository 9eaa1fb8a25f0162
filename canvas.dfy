/**
 * The part of an HTML canvas and its 2D context that the export draws with.
 *
 * Pixels are not modelled. What is kept is the context state (transform
 * scale, fill style, compositing mode, font, alignment, clip), the current
 * path, the save/restore stack, and the list of drawing operations, each
 * recorded together with the state it was drawn under.
 */
module Canvas2D {
  import opened JsText

  datatype Color = Hex(code: string) | Named(name: string) | Rgba(r: int, g: int, b: int, alpha: real)

  datatype ColorStop = ColorStop(offset: real, color: Color)

  datatype Paint =
    | Solid(color: Color)
    | LinearGradient(x0: real, y0: real, x1: real, y1: real, stops: seq<ColorStop>)

  /** `globalCompositeOperation`. */
  datatype Composite = SourceOver | Screen

  /** `textAlign`. */
  datatype Align = Start | Left | Center | Right

  /** A sub-path added by `roundRect(x, y, w, h, radius)`. */
  datatype Shape = RoundRect(x: real, y: real, w: real, h: real, radius: real)

  /** The drawing state that `save()` stores and `restore()` brings back. */
  datatype DrawState = DrawState(
    scale: real,
    fillStyle: Paint,
    composite: Composite,
    font: string,
    align: Align,
    clip: seq<seq<Shape>>)

  /** A fresh context: identity transform, black fill, `source-over`, no clip. */
  const InitialState := DrawState(1.0, Solid(Hex("#000000")), SourceOver, "10px sans-serif", Start, [])

  /** The default size of a canvas element. */
  const DefaultWidth := 300
  const DefaultHeight := 150

  datatype Drawing =
    | FillPath(path: seq<Shape>)
    | DrawImage(x: real, y: real, w: real, h: real)
    | FillRect(x: real, y: real, w: real, h: real)
    | FillText(text: JsString, x: real, y: real)

  /** One drawing operation and the state it was drawn under. */
  datatype DrawOp = DrawOp(drawing: Drawing, state: DrawState)

  class Canvas {
    var width: int
    var height: int
    var state: DrawState
    var path: seq<Shape>
    var saved: seq<DrawState>
    var ops: seq<DrawOp>

    /** `document.createElement('canvas')` with its 2D context. */
    constructor ()
      ensures width == DefaultWidth && height == DefaultHeight
      ensures state == InitialState && path == [] && saved == [] && ops == []
    {
      width, height := DefaultWidth, DefaultHeight;
      state, path, saved, ops := InitialState, [], [], [];
    }

    /** Setting `canvas.width` clears the bitmap and resets the context. */
    method SetWidth(w: int)
      modifies this
      ensures width == w && height == old(height)
      ensures state == InitialState && path == [] && saved == [] && ops == []
    {
      width := w;
      state, path, saved, ops := InitialState, [], [], [];
    }

    /** Setting `canvas.height` clears the bitmap and resets the context. */
    method SetHeight(h: int)
      modifies this
      ensures height == h && width == old(width)
      ensures state == InitialState && path == [] && saved == [] && ops == []
    {
      height := h;
      state, path, saved, ops := InitialState, [], [], [];
    }

    /** `ctx.scale(k, k)`: later coordinates are multiplied by `k` more. */
    method Scale(k: real)
      modifies this`state
      ensures state == old(state).(scale := old(state).scale * k)
    {
      state := state.(scale := state.scale * k);
    }

    method SetFillStyle(p: Paint)
      modifies this`state
      ensures state == old(state).(fillStyle := p)
    {
      state := state.(fillStyle := p);
    }

    method SetComposite(c: Composite)
      modifies this`state
      ensures state == old(state).(composite := c)
    {
      state := state.(composite := c);
    }

    method SetFont(f: string)
      modifies this`state
      ensures state == old(state).(font := f)
    {
      state := state.(font := f);
    }

    method SetTextAlign(a: Align)
      modifies this`state
      ensures state == old(state).(align := a)
    {
      state := state.(align := a);
    }

    /** `ctx.roundRect(...)`: adds a sub-path to the current path (which is never cleared here). */
    method AddRoundRect(s: Shape)
      modifies this`path
      ensures path == old(path) + [s]
    {
      path := path + [s];
    }

    /** `ctx.fill()`: fills the current path. */
    method Fill()
      modifies this`ops
      ensures ops == old(ops) + [DrawOp(FillPath(path), state)]
    {
      ops := ops + [DrawOp(FillPath(path), state)];
    }

    /** `ctx.clip()`: intersects the clip region with the current path. */
    method Clip()
      modifies this`state
      ensures state == old(state).(clip := old(state).clip + [path])
    {
      state := state.(clip := state.clip + [path]);
    }

    method Save()
      modifies this`saved
      ensures saved == old(saved) + [state]
    {
      saved := saved + [state];
    }

    /** `ctx.restore()`: pops the last saved state; does nothing when none is saved. */
    method Restore()
      modifies this`state, this`saved
      ensures old(saved) == [] ==> state == old(state) && saved == []
      ensures old(saved) != [] ==> state == old(saved)[|old(saved)| - 1] && saved == old(saved)[..|old(saved)| - 1]
    {
      if saved != [] {
        state := saved[|saved| - 1];
        saved := saved[..|saved| - 1];
      }
    }

    method DrawImageAt(x: real, y: real, w: real, h: real)
      modifies this`ops
      ensures ops == old(ops) + [DrawOp(DrawImage(x, y, w, h), state)]
    {
      ops := ops + [DrawOp(DrawImage(x, y, w, h), state)];
    }

    method FillRectAt(x: real, y: real, w: real, h: real)
      modifies this`ops
      ensures ops == old(ops) + [DrawOp(FillRect(x, y, w, h), state)]
    {
      ops := ops + [DrawOp(FillRect(x, y, w, h), state)];
    }

    method FillTextAt(text: JsString, x: real, y: real)
      modifies this`ops
      ensures ops == old(ops) + [DrawOp(FillText(text, x, y), state)]
    {
      ops := ops + [DrawOp(FillText(text, x, y), state)];
    }
  }
}
