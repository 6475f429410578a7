# Spotify cover wallpaper: a verified model of its drawing and ID logic

This project models two small deterministic parts of the spotify-wallpaper
web app:

- The wallpaper drawing in `src/components/IPhoneWallpaper.jsx`:
  - `lightenColor` and `darkenColor`, computed exactly in integers;
  - the table of iPhone screen sizes;
  - the three-stop background gradient built from the cover's dominant colour;
  - the centred cover anchor;
  - the rounded-rectangle window path;
  - the save / white plate / clip / image / restore drawing order of `drawWallpaper`.
- The album-ID extraction `url.split("/").pop().split("?")[0]` in the POST
  handler of `src/app/api/spotify-cover/route.js`.

Files and modules:

- `colors.dfy` (`Colors`): channel maps. `Math.round(n / 100)` is `(n + 50) / 100`
  with floor division, so each channel is computed without fractions.
- `paths.dfy` (`Paths`): points, canvas path operations, the rounded-rectangle
  path and its geometric properties. Coordinates are reals, because the cover's
  left edge `(width - coverSize) / 2` can be a half pixel (139.5 on a
  1179-pixel screen with a 900-pixel cover).
- `canvas.dfy` (`CanvasModel`): the browser canvas and its 2D context as a
  class that records drawing commands, keeps the drawing state and the
  save/restore stack, and builds the current path. It also holds the
  gradient object. Setting `canvas.width` or `canvas.height` resets the
  context and clears the bitmap, as browsers do, so the log restarts.
- `wallpaper.dfy` (`Wallpaper`): the preset table, the slider ranges, the
  gradient stops, the cover anchor, and `drawWallpaper` as imperative
  methods over a `Canvas`.
- `album_ids.dfy` (`AlbumIds`): JavaScript's `split` on one character, and
  the ID extraction. Two independent reference definitions back it:
  `AfterLast` (text after the last `/`) and `BeforeFirst` (text before the
  first `?`).

Facts about the code that the model keeps:

- The gradient has three fixed stops: the base colour at offset 0, the base
  lightened by 15 at 0.5, and the base darkened by 15 at 1.
- The background is always this gradient.
- The cover position is used as given and is never clamped. The position
  slider's maximum is `height - coverSize`, but a position chosen before the
  cover size grew is not adjusted.
- The corner-radius slider runs from 0 to 100.
- The presets are the four iPhone 15 models.
- The bracket that leaves the context state unchanged is the `save`/`restore`
  pair around the cover (`DrawCover`). The whole of `drawWallpaper` does not:
  it sets the fill style to the gradient before `save`, and resizing the
  canvas resets the state.

## Model

| member | source | states |
|---|---|---|
| `Colors.RoundHundredths` | src/components/IPhoneWallpaper.jsx:133 | `Math.round(n/100)`: the result r is the integer nearest to n/100, with a half rounded up (100r - 50 <= n < 100r + 50) |
| `Colors.LightenChannel` | src/components/IPhoneWallpaper.jsx:133 | one channel of `lightenColor`: never above 255, clamped to 255 only when the unclamped value rounds to 255 or more, and otherwise c + (255 - c) * amount / 100 rounded to the nearest integer, a half rounded up |
| `Colors.DarkenChannel` | src/components/IPhoneWallpaper.jsx:139 | one channel of `darkenColor`: never below 0, clamped to 0 only when the unclamped value rounds to 0 or less, and otherwise c - c * amount / 100 rounded to the nearest integer, a half rounded up |
| `Colors.LightenColor` | src/components/IPhoneWallpaper.jsx:131-135 | `lightenColor` returns an array of the same length, and each channel is the lightened channel at the same index (channels are mapped independently) |
| `Colors.DarkenColor` | src/components/IPhoneWallpaper.jsx:138-140 | `darkenColor` returns an array of the same length, and each channel is the darkened channel at the same index |
| `Colors.LightenChannelBounds` | src/components/IPhoneWallpaper.jsx:133 | for c in [0,255] and amount in [0,100], the lightened channel lies in [c, 255], and the clamp at 255 never fires (the result is exactly the rounded lightened value) |
| `Colors.DarkenChannelBounds` | src/components/IPhoneWallpaper.jsx:139 | for c in [0,255] and amount in [0,100], the darkened channel lies in [0, c], and the clamp at 0 never fires |
| `Colors.LightenChannelMonotone` | src/components/IPhoneWallpaper.jsx:133 | a lightened channel is non-decreasing in the amount |
| `Colors.DarkenChannelAntitone` | src/components/IPhoneWallpaper.jsx:139 | a darkened channel is non-increasing in the amount |
| `Colors.ChannelExtremes` | src/components/IPhoneWallpaper.jsx:131-140 | amount 100 lightens any channel to 255 and darkens it to 0 |
| `Colors.ZeroAmountIsIdentity` | src/components/IPhoneWallpaper.jsx:131-140 | amount 0 returns the colour unchanged, for both maps |
| `Colors.LightenColorBounds` | src/components/IPhoneWallpaper.jsx:131-135 | lightening keeps the length, and every channel ends up between its old value and 255 |
| `Colors.DarkenColorBounds` | src/components/IPhoneWallpaper.jsx:138-140 | darkening keeps the length, and every channel ends up between 0 and its old value |
| `Colors.LightenColorMonotone` | src/components/IPhoneWallpaper.jsx:131-135 | a larger amount lightens every channel at least as much |
| `Colors.DarkenColorAntitone` | src/components/IPhoneWallpaper.jsx:138-140 | a larger amount darkens every channel at least as much |
| `Colors.DarkGreyExample` | src/components/IPhoneWallpaper.jsx:73-74 | with the amount 15 that the background uses, (30,30,30) lightens to (64,64,64) and darkens to (26,26,26) |
| `Paths.RoundedRect` | src/components/IPhoneWallpaper.jsx:98-113 | the window path has 10 operations and starts with moveTo(x+r, y); it is one subpath ended by closePath, whose last corner returns to the start; lineTo and quadraticCurveTo alternate; every edge is horizontal or vertical; every corner's control point is tangent to both edges that meet there |
| `Paths.RoundedRectInSquare` | src/components/IPhoneWallpaper.jsx:98-113 | with 0 <= r <= size, every end point and control point lies in [x, x+size] x [y, y+size] |
| `Paths.SquareCorners` | src/components/IPhoneWallpaper.jsx:98-113 | with r = 0, every corner curve starts, bends and ends at the same point, and the edges run through the four corners of the square |
| `Paths.HalfSideRadius` | src/components/IPhoneWallpaper.jsx:98-113 | with r = size/2, every straight edge has length 0, so the outline is made of the four corner curves only |
| `CanvasModel.CanvasGradient.constructor` | src/components/IPhoneWallpaper.jsx:72 | `createLinearGradient` records its end points and starts with no stops |
| `CanvasModel.CanvasGradient.AddColorStop` | src/components/IPhoneWallpaper.jsx:76-78 | a stop with offset in [0,1] is appended; any other offset is refused and leaves the stops unchanged |
| `CanvasModel.Canvas.constructor` | src/components/IPhoneWallpaper.jsx:243-246 | a new `<canvas>` element is 300 x 150, with the default drawing state, no saved states, an empty path and nothing drawn |
| `CanvasModel.Canvas.SetWidth` | src/components/IPhoneWallpaper.jsx:68 | setting the width sets it, resets the context to the default state, and empties the stack, the path and the bitmap's log |
| `CanvasModel.Canvas.SetHeight` | src/components/IPhoneWallpaper.jsx:69 | setting the height sets it, with the same reset |
| `CanvasModel.Canvas.SetFillStyle` | src/components/IPhoneWallpaper.jsx:81 | only the fill style of the drawing state changes |
| `CanvasModel.Canvas.FillRect` | src/components/IPhoneWallpaper.jsx:82 | appends a rectangle fill that carries the current state; nothing else changes |
| `CanvasModel.Canvas.Save` | src/components/IPhoneWallpaper.jsx:89 | pushes the current drawing state and logs the save |
| `CanvasModel.Canvas.SetShadowColor` | src/components/IPhoneWallpaper.jsx:92 | only the shadow colour changes |
| `CanvasModel.Canvas.SetShadowBlur` | src/components/IPhoneWallpaper.jsx:93 | a non-negative blur is stored; a negative one is ignored |
| `CanvasModel.Canvas.SetShadowOffsetX` | src/components/IPhoneWallpaper.jsx:94 | only the horizontal shadow offset changes |
| `CanvasModel.Canvas.SetShadowOffsetY` | src/components/IPhoneWallpaper.jsx:95 | only the vertical shadow offset changes |
| `CanvasModel.Canvas.BeginPath` | src/components/IPhoneWallpaper.jsx:98 | empties the current path |
| `CanvasModel.Canvas.MoveTo` | src/components/IPhoneWallpaper.jsx:99 | appends a moveTo to the path |
| `CanvasModel.Canvas.LineTo` | src/components/IPhoneWallpaper.jsx:100 | appends a lineTo, or a moveTo when the path is empty |
| `CanvasModel.Canvas.QuadraticCurveTo` | src/components/IPhoneWallpaper.jsx:101 | appends a quadratic curve, after a moveTo to the control point when the path is empty |
| `CanvasModel.Canvas.ClosePath` | src/components/IPhoneWallpaper.jsx:113 | appends closePath to a non-empty path; an empty path stays empty |
| `CanvasModel.Canvas.Fill` | src/components/IPhoneWallpaper.jsx:117 | logs a fill of the current path with the current state |
| `CanvasModel.Canvas.Clip` | src/components/IPhoneWallpaper.jsx:123 | adds the current path to the state's clipping region and logs the clip |
| `CanvasModel.Canvas.DrawImage` | src/components/IPhoneWallpaper.jsx:124 | logs the image drawn at (x, y) with size w x h under the current state |
| `CanvasModel.Canvas.Restore` | src/components/IPhoneWallpaper.jsx:127 | pops the last saved state back into force; with nothing saved, the state is unchanged |
| `Wallpaper.Dimensions` | src/components/IPhoneWallpaper.jsx:22-27 | every preset has a positive width and height, and each preset has its listed size (the two 6.1-inch models share 1179 x 2556) |
| `Wallpaper.WithinControls` | src/components/IPhoneWallpaper.jsx:177-225 | within the menu and slider ranges, the preset is in the table, the corner radius is at most half the cover size, and the cover lies vertically inside the screen (0 <= position, position + size <= height) |
| `Wallpaper.InitialSettingsWithinControls` | src/components/IPhoneWallpaper.jsx:15-19 | the initial settings (iPhone 15 Pro Max, cover 900, radius 40, position 1100) lie within the menu and slider ranges |
| `Wallpaper.BackgroundStops` | src/components/IPhoneWallpaper.jsx:76-78 | the gradient gets three stops, the first at offset 0 with the dominant colour and the last at offset 1, at strictly increasing offsets |
| `Wallpaper.BackgroundPaint` | src/components/IPhoneWallpaper.jsx:72 | the background gradient is vertical (same x at both ends) and runs from the top of the canvas (y = 0) over its full height, with the three background stops |
| `Wallpaper.BackgroundStopsShape` | src/components/IPhoneWallpaper.jsx:72-78 | exactly three stops at offsets 0, 0.5 and 1, coloured base, `lighten(base,15)`, `darken(base,15)` in that order; for an RGB base, every stop is an RGB colour and each channel is lightest at the middle stop and darkest at the bottom |
| `Wallpaper.CoverAnchor` | src/components/IPhoneWallpaper.jsx:85-86 | the cover is horizontally centred (left margin x equals right margin W - (x + size)), and y is the cover position as given, with no clamping |
| `Wallpaper.CoverPlacement` | src/components/IPhoneWallpaper.jsx:85-86 | within the slider ranges the cover lies vertically inside the canvas, and it lies horizontally inside exactly when its size is at most the screen width |
| `Wallpaper.WideCoverOverflows` | src/components/IPhoneWallpaper.jsx:85 | a 1200-pixel cover on a 1179-pixel screen is within the slider ranges yet starts at x = -10.5 |
| `Wallpaper.HalfPixelAnchor` | src/components/IPhoneWallpaper.jsx:85-86 | a 900-pixel cover at position 1100 on a 1179 x 2556 screen is anchored at (139.5, 1100) |
| `Wallpaper.PlateState` | src/components/IPhoneWallpaper.jsx:92-116 | the style under which the window is filled: white fill, a shadow colour other than `transparent` cast straight down by 20 (`CoverDrawingOrder` states the exact colour `rgba(0, 0, 0, 0.3)`), the saved clipping region kept, and the shadow blur set to the blur setting when that is non-negative |
| `Wallpaper.CoverCommands` | src/components/IPhoneWallpaper.jsx:89-127 | the cover draws five commands, opened by save and closed by restore, with no other save or restore in between |
| `Wallpaper.CoverDrawingOrder` | src/components/IPhoneWallpaper.jsx:89-127 | the cover's commands are, in order: save; the window filled white with the shadow colour `rgba(0, 0, 0, 0.3)`; a clip to the window; the image drawn size x size at the anchor, with the shadow off and clipped to the window, which lies inside the image's square; restore |
| `Wallpaper.TraceRoundedRect` | src/components/IPhoneWallpaper.jsx:98-113 | the ten path calls leave exactly the rounded-rectangle path as the current path, and change nothing else |
| `Wallpaper.DrawCover` | src/components/IPhoneWallpaper.jsx:88-127 | after the cover is drawn, the drawing state and the saved-state stack equal what they were before; the log gains exactly the cover's commands |
| `Wallpaper.DrawWallpaper` | src/components/IPhoneWallpaper.jsx:62-128 | the canvas takes the preset's width and height; its log is the full-canvas gradient fill followed by the cover's commands at the centred anchor; the stack ends empty; the state left behind is the reset state with the gradient as fill style |
| `AlbumIds.Split` | src/app/api/spotify-cover/route.js:47 | `split` yields at least one piece, exactly one when the separator is absent, and no piece contains the separator |
| `AlbumIds.SplitJoinRoundTrip` | src/app/api/spotify-cover/route.js:47 | joining the pieces with the separator gives back the original string |
| `AlbumIds.AfterLast` | src/app/api/spotify-cover/route.js:47 | the text after the last separator contains no separator |
| `AlbumIds.AfterLastIsSuffix` | src/app/api/spotify-cover/route.js:47 | that text is a suffix of the string, and either all of it or preceded by the separator |
| `AlbumIds.AfterLastAt` | src/app/api/spotify-cover/route.js:47 | when position k holds the last separator, the text after the last separator is everything after k |
| `AlbumIds.BeforeFirst` | src/app/api/spotify-cover/route.js:47 | the text before the first separator is a prefix without the separator, and either all of the string or followed by the separator |
| `AlbumIds.BeforeFirstAt` | src/app/api/spotify-cover/route.js:47 | when position k holds the first separator, the text before it is everything before k |
| `AlbumIds.LastPieceIsAfterLast` | src/app/api/spotify-cover/route.js:47 | `split(...).pop()` is the text after the last separator |
| `AlbumIds.FirstPieceIsBeforeFirst` | src/app/api/spotify-cover/route.js:47 | `split(...)[0]` is the text before the first separator |
| `AlbumIds.AlbumId` | src/app/api/spotify-cover/route.js:47 | the extracted ID never contains `/` or `?`; it is defined for every input string |
| `AlbumIds.AlbumIdIsQueryFreeLastSegment` | src/app/api/spotify-cover/route.js:47 | the ID is the part before the first `?` of the text after the last `/` |
| `AlbumIds.PlainIdUnchanged` | src/app/api/spotify-cover/route.js:47 | a string with neither `/` nor `?` is returned unchanged |
| `AlbumIds.TrailingSlashGivesEmptyId` | src/app/api/spotify-cover/route.js:47-51 | a URL ending in `/` yields the empty ID, which the handler passes on to the album lookup |
| `AlbumIds.AlbumIdIdempotent` | src/app/api/spotify-cover/route.js:47 | extracting from an extracted ID returns it unchanged |
| `AlbumIds.ShareLinkGivesId` | src/app/api/spotify-cover/route.js:47 | a link `prefix/ID?query`, with no `/` in ID or query and no `?` in ID, yields exactly ID |

## Left out

- Dominant-colour extraction with ColorThief (src/components/IPhoneWallpaper.jsx:53-54) is a foreign library. `mainColor` is an input, and the lemmas that need it take an RGB triple with channels in [0, 255].
- Rasterisation is not modelled: gradient interpolation, the pixels covered by a fill or a clip, image scaling and shadow blur. These are browser graphics with floating-point output. The canvas records commands and geometry only.
- LightenColor, DarkenColor, LightenChannel, DarkenChannel: JavaScript computes `amount / 100` in floating point. The model rounds the exact rational value instead, so a channel whose floating-point product lands just off a half may round differently.
- A gradient stop's colour is kept as the channel sequence. The model does not build the `rgb(r,g,b)` text from it.
- CanvasModel.CanvasGradient.AsPaint: the fill style keeps a copy of the gradient's stops, not a reference to the gradient object. The source adds no stop after installing the gradient, so nothing differs here.
- CanvasModel.Canvas.SetWidth, CanvasModel.Canvas.SetHeight: they take natural numbers. The browser's parsing of other values (negative, non-numeric) into the default size is not modelled.
- CanvasModel.Canvas.SetShadowBlur: the browser also ignores infinite and NaN values. Reals have no such values.
- Wallpaper.DrawWallpaper: it requires the screen-size name to be a key of the table. The source would throw on an unknown name, but the menu offers only the table's keys.
- The shadow colour strings are recorded as given. The model does not parse them.
- React plumbing is not modelled: component state, the `useEffect` redraw trigger, image loading (src/components/IPhoneWallpaper.jsx:47-60), the axios request in `fetchCoverArt` (29-45), PNG export in `downloadWallpaper` (142-148) and the JSX controls (150-263). The slider ranges of the JSX appear only as the `WithinControls` predicate.
- The network part of the route is not modelled: `getAccessToken`, `getAlbumInfo` and the JSON responses (src/app/api/spotify-cover/route.js:6-36, 49-59) are I/O against the Spotify Web API.
- If the request body's `url` is not a string, line 47 throws before the `try`. The model takes the URL as a string.
- src/hooks/useLocalStorage.js is not part of this model. It is React state persisted through `window.localStorage`.
