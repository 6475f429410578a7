/** `drawWallpaper` of src/components/IPhoneWallpaper.jsx: the screen-size
    presets, the three-stop background gradient, the centred cover anchor,
    and the save / plate / clip / image / restore sequence that puts the cover
    into its rounded window. */
module Wallpaper {
  import opened Colors
  import opened Paths
  import opened CanvasModel

  datatype ScreenSize = ScreenSize(width: int, height: int)

  /** The presets offered in the screen-size menu. */
  const ScreenSizes: map<string, ScreenSize> := map[
    "iPhone 15 Pro Max" := ScreenSize(1290, 2796),
    "iPhone 15 Pro" := ScreenSize(1179, 2556),
    "iPhone 15" := ScreenSize(1179, 2556),
    "iPhone 15 Plus" := ScreenSize(1284, 2778)
  ]

  /** `screenSizes[screenSize]`: the name always comes from the menu, which
      lists exactly the keys of the table. */
  function Dimensions(name: string): (s: ScreenSize)
    requires name in ScreenSizes
    ensures s.width > 0 && s.height > 0
    ensures name == "iPhone 15 Pro Max" ==> s == ScreenSize(1290, 2796)
    ensures name == "iPhone 15 Pro" || name == "iPhone 15" ==> s == ScreenSize(1179, 2556)
    ensures name == "iPhone 15 Plus" ==> s == ScreenSize(1284, 2778)
  {
    ScreenSizes[name]
  }

  /** The component's settings that `drawWallpaper` reads. */
  datatype Settings = Settings(
    screenSize: string,
    coverSize: int,
    cornerRadius: int,
    shadowBlur: int,
    coverPosition: int)

  /** The settings the component starts with. */
  const InitialSettings := Settings("iPhone 15 Pro Max", 900, 40, 40, 1100)

  /** The ranges of the menu and the three sliders: cover size 600 to 1200,
      corner radius 0 to 100, cover position 0 to the screen height minus
      the cover size. */
  predicate WithinControls(s: Settings)
    ensures WithinControls(s) ==>
      s.screenSize in ScreenSizes && 2 * s.cornerRadius <= s.coverSize &&
      0 <= s.coverPosition && s.coverPosition + s.coverSize <= Dimensions(s.screenSize).height
  {
    s.screenSize in ScreenSizes &&
    600 <= s.coverSize <= 1200 &&
    0 <= s.cornerRadius <= 100 &&
    0 <= s.coverPosition <= ScreenSizes[s.screenSize].height - s.coverSize
  }

  lemma InitialSettingsWithinControls()
    ensures WithinControls(InitialSettings)
  {
    assert Dimensions(InitialSettings.screenSize).height == 2796;
  }

  // ---------------------------------------------------------------------------
  // Background

  /** The stops added to the background gradient: the dominant colour at the
      top, 15% lighter half-way down, 15% darker at the bottom. */
  function BackgroundStops(base: Color): (stops: seq<ColorStop>)
    ensures |stops| == 3
    ensures stops[0].offset == 0.0 && stops[|stops| - 1].offset == 1.0
    ensures forall i, j :: 0 <= i < j < |stops| ==> stops[i].offset < stops[j].offset
    ensures stops[0].color == base
  {
    [ ColorStop(0.0, base),
      ColorStop(0.5, LightenColor(base, 15)),
      ColorStop(1.0, DarkenColor(base, 15)) ]
  }

  /** The vertical gradient from the top of the canvas to its bottom. */
  function BackgroundPaint(height: int, base: Color): (p: Paint)
    ensures p.LinearGradient? && p.x0 == p.x1 && p.y0 == 0.0 && p.y1 - p.y0 == height as real
    ensures p.stops == BackgroundStops(base)
  {
    LinearGradient(0.0, 0.0, 0.0, height as real, BackgroundStops(base))
  }

  /** The stops span offsets 0 to 1 in strictly increasing order, carry the
      base colour, its lightened and its darkened form, and every channel is
      lightest at the middle stop and darkest at the bottom one. */
  lemma BackgroundStopsShape(base: Color)
    requires IsRgb(base)
    ensures var stops := BackgroundStops(base);
      |stops| == 3 &&
      stops[0].offset == 0.0 && stops[1].offset == 0.5 && stops[2].offset == 1.0 &&
      (forall i, j :: 0 <= i < j < |stops| ==> stops[i].offset < stops[j].offset) &&
      stops[0].color == base &&
      stops[1].color == LightenColor(base, 15) &&
      stops[2].color == DarkenColor(base, 15) &&
      (forall i :: 0 <= i < |stops| ==> IsRgb(stops[i].color)) &&
      (forall k :: 0 <= k < 3 ==>
        stops[2].color[k] <= stops[0].color[k] <= stops[1].color[k])
  {
    LightenColorBounds(base, 15);
    DarkenColorBounds(base, 15);
    var stops := BackgroundStops(base);
    forall i | 0 <= i < |stops|
      ensures IsRgb(stops[i].color)
    {
      var c := stops[i].color;
      forall k | 0 <= k < |c|
        ensures IsChannel(c[k])
      {
        assert IsChannel(base[k]);
      }
    }
  }

  // ---------------------------------------------------------------------------
  // Cover placement

  /** `x = (width - coverSize) / 2`, `y = coverPosition`: the left margin
      equals the right margin, and the position is used as given. */
  function CoverAnchor(canvasWidth: int, coverSize: int, coverPosition: int): (p: Point)
    ensures p.x == canvasWidth as real - (p.x + coverSize as real)
    ensures p.y == coverPosition as real
  {
    Point((canvasWidth - coverSize) as real / 2.0, coverPosition as real)
  }

  /** Within the controls' ranges the cover lies inside the canvas
      vertically, while it lies inside horizontally exactly when it is no
      wider than the screen. */
  lemma CoverPlacement(s: Settings)
    requires WithinControls(s)
    ensures var dims := Dimensions(s.screenSize);
      var p := CoverAnchor(dims.width, s.coverSize, s.coverPosition);
      0.0 <= p.y && p.y + s.coverSize as real <= dims.height as real &&
      (0.0 <= p.x && p.x + s.coverSize as real <= dims.width as real <==> s.coverSize <= dims.width)
  {
  }

  /** The largest cover on the 1179-pixel-wide screens sticks out by 10.5
      pixels on each side. */
  lemma WideCoverOverflows()
    ensures WithinControls(Settings("iPhone 15", 1200, 40, 40, 0))
    ensures CoverAnchor(Dimensions("iPhone 15").width, 1200, 0).x == -10.5
  {
    assert Dimensions("iPhone 15") == ScreenSize(1179, 2556);
  }

  /** A 900-pixel cover on a 1179 x 2556 screen at position 1100 is drawn at
      (139.5, 1100). */
  lemma HalfPixelAnchor()
    ensures CoverAnchor(Dimensions("iPhone 15 Pro").width, 900, 1100) == Point(139.5, 1100.0)
  {
    assert Dimensions("iPhone 15 Pro") == ScreenSize(1179, 2556);
  }

  // ---------------------------------------------------------------------------
  // Drawing

  /** The state in force for the white plate: the shadow settings on top of
      the state saved at the start of the cover (a negative blur is ignored). */
  function PlateState(saved: DrawingState, blur: real): (plate: DrawingState)
    ensures plate.clip == saved.clip
    ensures plate.fillStyle == CssColor("white") && plate.shadowColor != "transparent"
    ensures plate.shadowOffsetX == 0.0 && plate.shadowOffsetY == 20.0
    ensures blur >= 0.0 ==> plate.shadowBlur == blur
    ensures saved.shadowBlur >= 0.0 ==> plate.shadowBlur >= 0.0
  {
    saved.(fillStyle := CssColor("white"),
           shadowColor := "rgba(0, 0, 0, 0.3)",
           shadowBlur := if blur >= 0.0 then blur else saved.shadowBlur,
           shadowOffsetX := 0.0,
           shadowOffsetY := 20.0)
  }

  /** What the cover adds to the canvas log, from the state `saved` in force
      when it starts. */
  function CoverCommands(saved: DrawingState, img: Image, x: real, y: real, size: real, r: real, blur: real): (cmds: seq<Command>)
    ensures |cmds| == 5 && cmds[0] == Command.Save && cmds[|cmds| - 1] == Command.Restore
    ensures forall i :: 0 < i < |cmds| - 1 ==> !cmds[i].Save? && !cmds[i].Restore?
  {
    var window := RoundedRect(x, y, size, r);
    var plate := PlateState(saved, blur);
    [ Command.Save,
      Command.Fill(window, plate),
      Command.Clip(window),
      Command.DrawImage(img, x, y, size, size, plate.(shadowColor := "transparent", clip := saved.clip + [window])),
      Command.Restore ]
  }

  /** The order of the cover's drawing: save; the window filled white with the
      shadow on; the clip to the window; the image drawn size x size at the
      anchor, with the shadow off and clipped to the window, which lies inside
      the image's square; restore. */
  lemma CoverDrawingOrder(saved: DrawingState, img: Image, x: real, y: real, size: real, r: real, blur: real)
    requires 0.0 <= r <= size
    ensures var cmds := CoverCommands(saved, img, x, y, size, r, blur);
      var window := RoundedRect(x, y, size, r);
      |cmds| == 5 && cmds[0] == Command.Save && cmds[4] == Command.Restore &&
      cmds[1].Fill? && cmds[1].path == window &&
      cmds[1].state.fillStyle == CssColor("white") && cmds[1].state.shadowColor == "rgba(0, 0, 0, 0.3)" &&
      cmds[2] == Command.Clip(window) &&
      cmds[3].DrawImage? && cmds[3].image == img &&
      cmds[3].x == x && cmds[3].y == y && cmds[3].w == size && cmds[3].h == size &&
      cmds[3].state.shadowColor == "transparent" &&
      cmds[3].state.clip == saved.clip + [window] &&
      PathInSquare(window, cmds[3].x, cmds[3].y, cmds[3].w)
  {
    RoundedRectInSquare(x, y, size, r);
  }

  /** The path calls of `drawWallpaper`: `beginPath`, then the rounded rectangle call by call.
      Only the current path changes. */
  method TraceRoundedRect(canvas: Canvas, x: real, y: real, size: real, r: real)
    modifies canvas
    ensures canvas.path == RoundedRect(x, y, size, r)
    ensures canvas.state == old(canvas.state) && canvas.stack == old(canvas.stack) && canvas.log == old(canvas.log)
    ensures canvas.width == old(canvas.width) && canvas.height == old(canvas.height)
  {
    canvas.BeginPath();
    canvas.MoveTo(x + r, y);
    canvas.LineTo(x + size - r, y);
    canvas.QuadraticCurveTo(x + size, y, x + size, y + r);
    canvas.LineTo(x + size, y + size - r);
    canvas.QuadraticCurveTo(x + size, y + size, x + size - r, y + size);
    canvas.LineTo(x + r, y + size);
    canvas.QuadraticCurveTo(x, y + size, x, y + size - r);
    canvas.LineTo(x, y + r);
    canvas.QuadraticCurveTo(x, y, x + r, y);
    canvas.ClosePath();
  }

  /** The cover part of `drawWallpaper`, between `save` and `restore`. The drawing state
      and the saved-state stack are the same afterwards as before. */
  method DrawCover(canvas: Canvas, img: Image, x: real, y: real, size: real, r: real, blur: real)
    modifies canvas
    ensures canvas.state == old(canvas.state) && canvas.stack == old(canvas.stack)
    ensures canvas.path == RoundedRect(x, y, size, r)
    ensures canvas.log == old(canvas.log) + CoverCommands(old(canvas.state), img, x, y, size, r, blur)
    ensures canvas.width == old(canvas.width) && canvas.height == old(canvas.height)
  {
    ghost var saved, log0 := canvas.state, canvas.log;
    ghost var window := RoundedRect(x, y, size, r);
    ghost var plate := PlateState(saved, blur);

    canvas.Save();

    canvas.SetShadowColor("rgba(0, 0, 0, 0.3)");
    canvas.SetShadowBlur(blur);
    canvas.SetShadowOffsetX(0.0);
    canvas.SetShadowOffsetY(20.0);

    TraceRoundedRect(canvas, x, y, size, r);

    canvas.SetFillStyle(CssColor("white"));
    assert canvas.state == plate;
    canvas.Fill();

    canvas.SetShadowColor("transparent");

    canvas.Clip();
    canvas.DrawImage(img, x, y, size, size);
    assert canvas.log == log0 + CoverCommands(saved, img, x, y, size, r, blur)[..4];

    canvas.Restore();
  }

  /** The state `drawWallpaper` leaves behind: the fresh state of the resized
      canvas with the background gradient as fill style. */
  function BackgroundState(height: int, base: Color): DrawingState {
    DefaultState.(fillStyle := BackgroundPaint(height, base))
  }

  /** `drawWallpaper(img, mainColor)`: size the canvas to the preset, fill it
      with the gradient, then draw the cover at the centred anchor. */
  method DrawWallpaper(canvas: Canvas, s: Settings, img: Image, mainColor: Color)
    requires s.screenSize in ScreenSizes
    modifies canvas
    ensures var dims := Dimensions(s.screenSize);
      var p := CoverAnchor(dims.width, s.coverSize, s.coverPosition);
      canvas.width == dims.width && canvas.height == dims.height &&
      canvas.state == BackgroundState(dims.height, mainColor) && canvas.stack == [] &&
      canvas.path == RoundedRect(p.x, p.y, s.coverSize as real, s.cornerRadius as real) &&
      canvas.log ==
        [Command.FillRect(0.0, 0.0, dims.width as real, dims.height as real, BackgroundState(dims.height, mainColor))] +
        CoverCommands(BackgroundState(dims.height, mainColor), img, p.x, p.y,
                      s.coverSize as real, s.cornerRadius as real, s.shadowBlur as real)
  {
    var dims := Dimensions(s.screenSize);
    canvas.SetWidth(dims.width);
    canvas.SetHeight(dims.height);

    var gradient := new CanvasGradient(0.0, 0.0, 0.0, dims.height as real);
    var lighter := LightenColor(mainColor, 15);
    var darker := DarkenColor(mainColor, 15);
    var ok0 := gradient.AddColorStop(0.0, mainColor);
    var ok1 := gradient.AddColorStop(0.5, lighter);
    var ok2 := gradient.AddColorStop(1.0, darker);
    assert ok0 && ok1 && ok2;

    canvas.SetFillStyle(gradient.AsPaint());
    canvas.FillRect(0.0, 0.0, dims.width as real, dims.height as real);

    var p := CoverAnchor(dims.width, s.coverSize, s.coverPosition);
    DrawCover(canvas, img, p.x, p.y, s.coverSize as real, s.cornerRadius as real, s.shadowBlur as real);
  }
}
