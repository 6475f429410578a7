/** The parts of the browser's canvas and 2D context that `drawWallpaper`
    uses, as a recorder: each drawing call appends a command to `log`
    together with the drawing state in force, `save` and `restore` push and
    pop that state, and the path calls build the current path. Pixels are
    not computed. */
module CanvasModel {
  import opened Paths

  /** The cover image handed to `drawImage`, named by where it came from. */
  datatype Image = Image(src: string)

  /** A stop of a linear gradient; the channels stand for the `rgb(...)`
      text the component builds from them. */
  datatype ColorStop = ColorStop(offset: real, color: seq<int>)

  datatype Paint =
    | CssColor(name: string)
    | LinearGradient(x0: real, y0: real, x1: real, y1: real, stops: seq<ColorStop>)

  /** The part of the context that `save` and `restore` keep: the styles the
      component sets and the clipping region (as the list of clip paths whose
      intersection it is). The current path is not part of it. */
  datatype DrawingState = DrawingState(
    fillStyle: Paint,
    shadowColor: string,
    shadowBlur: real,
    shadowOffsetX: real,
    shadowOffsetY: real,
    clip: seq<seq<PathOp>>)

  /** The state of a fresh context, and of one whose canvas was resized. */
  const DefaultState := DrawingState(CssColor("#000000"), "rgba(0, 0, 0, 0)", 0.0, 0.0, 0.0, [])

  datatype Command =
    | FillRect(x: real, y: real, w: real, h: real, state: DrawingState)
    | Save
    | Fill(path: seq<PathOp>, state: DrawingState)
    | Clip(path: seq<PathOp>)
    | DrawImage(image: Image, x: real, y: real, w: real, h: real, state: DrawingState)
    | Restore

  /** A gradient object; `addColorStop` appends to its stops. */
  class CanvasGradient {
    const x0: real
    const y0: real
    const x1: real
    const y1: real
    var stops: seq<ColorStop>

    /** `ctx.createLinearGradient(x0, y0, x1, y1)`. */
    constructor (x0: real, y0: real, x1: real, y1: real)
      ensures this.x0 == x0 && this.y0 == y0 && this.x1 == x1 && this.y1 == y1
      ensures stops == []
    {
      this.x0, this.y0, this.x1, this.y1 := x0, y0, x1, y1;
      stops := [];
    }

    /** `addColorStop`: an offset outside [0, 1] is refused (the browser
        throws) and leaves the stops as they were. The browser keeps the
        stops sorted by offset, a new stop going after any of equal offset;
        appending agrees with that when offsets arrive in non-decreasing
        order, as the background's 0, 0.5, 1 do. */
    method AddColorStop(offset: real, color: seq<int>) returns (ok: bool)
      modifies this
      ensures ok <==> 0.0 <= offset <= 1.0
      ensures stops == if ok then old(stops) + [ColorStop(offset, color)] else old(stops)
    {
      ok := 0.0 <= offset <= 1.0;
      if ok {
        stops := stops + [ColorStop(offset, color)];
      }
    }

    /** The paint `ctx.fillStyle = gradient` installs. */
    function AsPaint(): Paint
      reads this
    {
      LinearGradient(x0, y0, x1, y1, stops)
    }
  }

  /** A canvas element together with its 2D context. `log` holds the calls
      issued since the bitmap was last cleared, in order: the drawing
      commands together with save, clip and restore. */
  class Canvas {
    var width: int
    var height: int
    var state: DrawingState
    var stack: seq<DrawingState>
    var path: seq<PathOp>
    var log: seq<Command>

    /** A new canvas is 300 x 150 with a fresh context. */
    constructor ()
      ensures width == 300 && height == 150
      ensures state == DefaultState && stack == [] && path == [] && log == []
    {
      width, height := 300, 150;
      state, stack, path, log := DefaultState, [], [], [];
    }

    /** `canvas.width = w`: the bitmap is cleared and the context is reset
        (default state, empty state stack, empty path). */
    method SetWidth(w: nat)
      modifies this
      ensures width == w && height == old(height)
      ensures state == DefaultState && stack == [] && path == [] && log == []
    {
      width := w;
      state, stack, path, log := DefaultState, [], [], [];
    }

    /** `canvas.height = h`, with the same reset as for the width. */
    method SetHeight(h: nat)
      modifies this
      ensures height == h && width == old(width)
      ensures state == DefaultState && stack == [] && path == [] && log == []
    {
      height := h;
      state, stack, path, log := DefaultState, [], [], [];
    }

    method SetFillStyle(p: Paint)
      modifies this
      ensures state == old(state).(fillStyle := p)
      ensures width == old(width) && height == old(height)
      ensures stack == old(stack) && path == old(path) && log == old(log)
    {
      state := state.(fillStyle := p);
    }

    method SetShadowColor(c: string)
      modifies this
      ensures state == old(state).(shadowColor := c)
      ensures width == old(width) && height == old(height)
      ensures stack == old(stack) && path == old(path) && log == old(log)
    {
      state := state.(shadowColor := c);
    }

    /** A negative blur is ignored, as the browser does. */
    method SetShadowBlur(b: real)
      modifies this
      ensures state == if b >= 0.0 then old(state).(shadowBlur := b) else old(state)
      ensures width == old(width) && height == old(height)
      ensures stack == old(stack) && path == old(path) && log == old(log)
    {
      if b >= 0.0 {
        state := state.(shadowBlur := b);
      }
    }

    method SetShadowOffsetX(v: real)
      modifies this
      ensures state == old(state).(shadowOffsetX := v)
      ensures width == old(width) && height == old(height)
      ensures stack == old(stack) && path == old(path) && log == old(log)
    {
      state := state.(shadowOffsetX := v);
    }

    method SetShadowOffsetY(v: real)
      modifies this
      ensures state == old(state).(shadowOffsetY := v)
      ensures width == old(width) && height == old(height)
      ensures stack == old(stack) && path == old(path) && log == old(log)
    {
      state := state.(shadowOffsetY := v);
    }

    method FillRect(x: real, y: real, w: real, h: real)
      modifies this
      ensures log == old(log) + [Command.FillRect(x, y, w, h, old(state))]
      ensures width == old(width) && height == old(height)
      ensures state == old(state) && stack == old(stack) && path == old(path)
    {
      log := log + [Command.FillRect(x, y, w, h, state)];
    }

    /** `save`: push a copy of the drawing state. */
    method Save()
      modifies this
      ensures stack == old(stack) + [old(state)]
      ensures log == old(log) + [Command.Save]
      ensures width == old(width) && height == old(height)
      ensures state == old(state) && path == old(path)
    {
      stack := stack + [state];
      log := log + [Command.Save];
    }

    /** `restore`: pop the last saved state; with nothing saved it does
        nothing to the state. */
    method Restore()
      modifies this
      ensures old(stack) == [] ==> state == old(state) && stack == []
      ensures old(stack) != [] ==>
                state == old(stack)[|old(stack)| - 1] && stack == old(stack)[..|old(stack)| - 1]
      ensures log == old(log) + [Command.Restore]
      ensures width == old(width) && height == old(height) && path == old(path)
    {
      if stack != [] {
        state := stack[|stack| - 1];
        stack := stack[..|stack| - 1];
      }
      log := log + [Command.Restore];
    }

    method BeginPath()
      modifies this
      ensures path == []
      ensures width == old(width) && height == old(height)
      ensures state == old(state) && stack == old(stack) && log == old(log)
    {
      path := [];
    }

    method MoveTo(x: real, y: real)
      modifies this
      ensures path == old(path) + [PathOp.MoveTo(Point(x, y))]
      ensures width == old(width) && height == old(height)
      ensures state == old(state) && stack == old(stack) && log == old(log)
    {
      path := path + [PathOp.MoveTo(Point(x, y))];
    }

    /** `lineTo` on an empty path only sets the pen, as a moveTo would. */
    method LineTo(x: real, y: real)
      modifies this
      ensures path == old(path) + [if old(path) == [] then PathOp.MoveTo(Point(x, y)) else PathOp.LineTo(Point(x, y))]
      ensures width == old(width) && height == old(height)
      ensures state == old(state) && stack == old(stack) && log == old(log)
    {
      if path == [] {
        path := [PathOp.MoveTo(Point(x, y))];
      } else {
        path := path + [PathOp.LineTo(Point(x, y))];
      }
    }

    /** `quadraticCurveTo` on an empty path first moves to the control point. */
    method QuadraticCurveTo(cx: real, cy: real, x: real, y: real)
      modifies this
      ensures path == old(path) + (if old(path) == [] then [PathOp.MoveTo(Point(cx, cy))] else [])
                                + [PathOp.QuadraticCurveTo(Point(cx, cy), Point(x, y))]
      ensures width == old(width) && height == old(height)
      ensures state == old(state) && stack == old(stack) && log == old(log)
    {
      if path == [] {
        path := [PathOp.MoveTo(Point(cx, cy))];
      }
      path := path + [PathOp.QuadraticCurveTo(Point(cx, cy), Point(x, y))];
    }

    /** `closePath` on an empty path does nothing. */
    method ClosePath()
      modifies this
      ensures path == if old(path) == [] then [] else old(path) + [PathOp.ClosePath]
      ensures width == old(width) && height == old(height)
      ensures state == old(state) && stack == old(stack) && log == old(log)
    {
      if path != [] {
        path := path + [PathOp.ClosePath];
      }
    }

    /** `fill`: paint the current path with the current state. */
    method Fill()
      modifies this
      ensures log == old(log) + [Command.Fill(old(path), old(state))]
      ensures width == old(width) && height == old(height)
      ensures state == old(state) && stack == old(stack) && path == old(path)
    {
      log := log + [Command.Fill(path, state)];
    }

    /** `clip`: narrow the clipping region to the current path. */
    method Clip()
      modifies this
      ensures state == old(state).(clip := old(state).clip + [old(path)])
      ensures log == old(log) + [Command.Clip(old(path))]
      ensures width == old(width) && height == old(height)
      ensures stack == old(stack) && path == old(path)
    {
      state := state.(clip := state.clip + [path]);
      log := log + [Command.Clip(path)];
    }

    method DrawImage(img: Image, x: real, y: real, w: real, h: real)
      modifies this
      ensures log == old(log) + [Command.DrawImage(img, x, y, w, h, old(state))]
      ensures width == old(width) && height == old(height)
      ensures state == old(state) && stack == old(stack) && path == old(path)
    {
      log := log + [Command.DrawImage(img, x, y, w, h, state)];
    }
  }
}
