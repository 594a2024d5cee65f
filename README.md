# Pencil tool of the whiteboard, in Dafny

This project models the freehand pencil of the collaborative whiteboard,
`client-data/tools/pencil/doodle-tool.js`, and proves what it guarantees. The
pencil is one object with four parts:

- **The local drawing session** (`startLine`, `continueLine`, `stopLine`). It
  announces a new line with a `line` message, then sends its points as `child`
  messages. A point is sent only more than 70 ms after the last one.
- **The dispatcher** (`draw`). It carries out a `line` message by creating or
  updating the line (`createLine`) and a `child` message by adding the point to
  its line (`addPoint`). A point of an unknown line gets a stub line.
- **The path builder** (`addPoint`). It turns the samples of a line into SVG
  path commands:
  - the first sample is a move `M`;
  - the second is a straight cubic Bézier `C`;
  - each later sample amends the previous curve's second control point and
    appends a new curve. Both control points are placed on the tangent through
    the previous point.
  - A sample equal to one of the last two end points is dropped.
- **The path-data cache** (`getPathData`). It keeps each line's command list, by
  id, once read.

The model is laid out as follows:

- `geometry.dfy` holds points and `dist`. `Math.hypot` is a function parameter.
  All the model assumes about it is `HypotLike`:
  - it is never negative;
  - it is positive on every non-zero vector;
  - scaling a vector by `k` scales its length by `|k|`.

  The taxicab length meets all three, so nothing that requires `HypotLike` is
  vacuous.
- `path_data.dfy` holds path commands and the shape of a stroke. It also holds
  the sample-keeping rule `Accept`, stated on points alone.
- `smoothing.dfy` holds `addPoint` as the function `NextPath` on a command
  list, plus its properties and the control-point geometry.
- `canvas.dfy` holds the attributes `createLine` sets and the order of the
  drawing area's children.
- `protocol.dfy` holds the messages and the diagnostics.
- `doodle.dfy` holds the class `Pencil`:
  - its fields are the pencil's state: `curLineId`, `lastTime`,
    `renderingLine`, `pathDataCache`;
  - the SVG elements are a map by id (`svg`), and the drawing area's children
    are a sequence of ids;
  - the messages given to `Tools.drawAndSend` go to `outbox`, and the console
    errors go to `diagnostics`;
  - `getPathData`, `addPoint`, `createLine`, `draw`, `startLine`,
    `continueLine` and `stopLine` are methods of `Pencil` on this state;
  - `addPoint`'s loop-free body, which only computes a new list, is the
    module-level method `AppendSample`, proved equal to `NextPath`;
  - `dist` is the pure function `Geometry.Dist`;
  - `PointMessage` as written is `Protocol.PointMessageParentAsWritten`. The
    point the session methods send is the message `Child(curLineId, x, y)`.

`Pencil.Valid()` is the object invariant that every method keeps:

- every stroke is well formed: an `M` with 2 numbers, then `C`s with 6;
- no end point repeats either of the two before it;
- every element carries the attributes `createLine` gives;
- the cache agrees with the elements;
- the rendering line is an element;
- the drawing area holds each element exactly once;
- every sent point follows the `line` message of its stroke;
- the times at which points were sent are more than 70 ms apart, across
  strokes too.

Points where the code is easy to misread; the model follows the code:

- The throttle is strict: a point goes out only when `now - lastTime > 70`.
- The first point of `startLine` and the last point of `stopLine` are not
  forced through. Both go through the same throttled `continueLine`.
- `createLine` on an id that already exists keeps that element's path. It does
  not reset it, and the cache keeps its entry too. It does set the new
  attributes, so a stub made for an orphan point takes the attributes of a later
  `line` message.
- A `child` of another known line does not change `renderingLine`. Only `line`
  messages and orphan stubs set it.
- The duplicate check applies only from the third sample on. A duplicate still
  primes the cache, because `getPathData` runs before the early return.

## Model

| member | source | states |
|---|---|---|
| `Geometry.Dist` | client-data/tools/pencil/doodle-tool.js:75-78 | the distance is never negative, and is zero exactly when the two points coincide |
| `Geometry.DistSymmetric` | client-data/tools/pencil/doodle-tool.js:75-78 | `dist(a, b) == dist(b, a)` |
| `Geometry.HypotLikeIsSatisfiable` | client-data/tools/pencil/doodle-tool.js:77 | the taxicab length meets every assumption made about `Math.hypot`, so those assumptions are consistent |
| `PathData.NoShortRepeatsAt` | client-data/tools/pencil/doodle-tool.js:120-122 | the stroke's duplicate-freedom condition holds exactly when every point from the third on differs from each of the two before it |
| `PathData.AcceptKeepsNoShortRepeats` | client-data/tools/pencil/doodle-tool.js:120-122 | keeping or dropping one sample by the duplicate rule never creates a short repeat |
| `PathData.AcceptAllExtends` | client-data/tools/pencil/doodle-tool.js:120-147 | feeding samples only appends: the kept points start with the earlier ones and grow by at most one per sample |
| `Smoothing.NextPath` | client-data/tools/pencil/doodle-tool.js:91-147 | `addPoint` keeps the shape of a stroke: an `M` with 2 numbers, then only `C`s with 6 |
| `Smoothing.NextPathAll` | client-data/tools/pencil/doodle-tool.js:91-147 | any number of samples keeps that shape |
| `Smoothing.FirstTwoSamples` | client-data/tools/pencil/doodle-tool.js:94-108 | on an empty path exactly `M[x, y]` is appended; on a one-command path exactly `C[p0x, p0y, x, y, x, y]` is appended |
| `Smoothing.IsDuplicate` | client-data/tools/pencil/doodle-tool.js:120-122 | the duplicate test; `UnchangedIffDuplicate` states that it holds exactly when `addPoint` leaves the path unchanged |
| `Smoothing.UnchangedIffDuplicate` | client-data/tools/pencil/doodle-tool.js:120-122 | the path is left unchanged if and only if it has two commands or more and the sample equals the last or the second-to-last end point |
| `Smoothing.SmoothingStep` | client-data/tools/pencil/doodle-tool.js:129-147 | a kept third or later sample adds exactly one command, `C[cx2, cy2, x, y, x, y]`. The command before it has only numbers 2 and 3 replaced, by `cx1, cy1`. All earlier commands are unchanged. |
| `Smoothing.AppendOnly` | client-data/tools/pencil/doodle-tool.js:94-147 | no command is removed; at most one is added, and it ends at the sample; only the last old command may change |
| `Smoothing.NextPathEndpoints` | client-data/tools/pencil/doodle-tool.js:112-147 | the end points of the new path are the old end points with the sample kept or dropped by the duplicate rule |
| `Smoothing.NextPathKeepsStrokeOk` | client-data/tools/pencil/doodle-tool.js:91-147 | shape and duplicate-freedom of the end points are preserved by `addPoint` |
| `Smoothing.NextPathAllEndpoints` | client-data/tools/pencil/doodle-tool.js:91-147 | after a sequence of samples, the end points are, in order, exactly the kept samples |
| `Smoothing.StrokeFromSamples` | client-data/tools/pencil/doodle-tool.js:91-147 | a stroke built from nothing passes through exactly its kept samples, none repeating either of the two before it |
| `Smoothing.AcceptAllKeepsNoShortRepeats` | client-data/tools/pencil/doodle-tool.js:120-122 | the duplicate rule, applied to any sample sequence, keeps the kept points free of short repeats |
| `Smoothing.ControlPoints` | client-data/tools/pencil/doodle-tool.js:124-135 | the two control points around `prev`; what they are is stated by `ControlPointFormulas`, `ControlPointsOnTangent` and `HandleLengths` |
| `Smoothing.ControlPointFormulas` | client-data/tools/pencil/doodle-tool.js:111-135 | `norm > 0` once the sample differs from `ante`. `cx1 = prev_x - dist1 * (x - ante_x) / 3` and `cx2 = prev_x + dist2 * (x - ante_x) / 3`, and likewise for y. |
| `Smoothing.ControlOffsets` | client-data/tools/pencil/doodle-tool.js:124-135 | the control points are `prev` moved by `-k1` and `+k2` times `x - ante`, where both factors are non-negative |
| `Smoothing.ControlPointsOnTangent` | client-data/tools/pencil/doodle-tool.js:124-135 | both control points lie on the line through `prev` along `x - ante`: the first behind `prev`, the second ahead of it |
| `Smoothing.HandleLengths` | client-data/tools/pencil/doodle-tool.js:127-135 | the first control point is `dist(ante, prev) / 3` from `prev`; the second is `dist(x, prev) / 3` from it |
| `Canvas.StrokeColor` | client-data/tools/pencil/doodle-tool.js:156 | a missing or empty color becomes `black`; any other color is kept; the result is never empty |
| `Canvas.StrokeWidth` | client-data/tools/pencil/doodle-tool.js:157 | a missing size, or a size of 0, becomes 10; any other size is kept |
| `Canvas.Opacity` | client-data/tools/pencil/doodle-tool.js:158 | the opacity is clamped into [0.1, 1]; an opacity already in range is kept; a missing one gives 1 |
| `Canvas.CreatedElement` | client-data/tools/pencil/doodle-tool.js:153-158 | the element has valid attributes; an existing element keeps its path, and a new one has an empty path |
| `Canvas.StubAttributes` | client-data/tools/pencil/doodle-tool.js:156-158 | the stub for an orphan point is black, 10 wide and opaque |
| `Canvas.CreatedElementIdempotent` | client-data/tools/pencil/doodle-tool.js:151-160 | replaying a `line` message leaves the element exactly as the first one did |
| `Canvas.Remove` | client-data/tools/pencil/doodle-tool.js:159 | removing a child keeps exactly the other ids, keeps them distinct and never lengthens the list |
| `Canvas.RemoveKeepsOrder` | client-data/tools/pencil/doodle-tool.js:159 | taking a child out of `before + [id] + after` leaves `before + after`: the other children keep their order |
| `Canvas.AppendChild` | client-data/tools/pencil/doodle-tool.js:159 | `appendChild` makes the line the last child and drops nothing: the children are the old ones plus the line, each still once; the result is the old children without the line, then the line |
| `Canvas.AppendChildMoves` | client-data/tools/pencil/doodle-tool.js:159 | appending a line that is already a child moves it to the end and keeps the other children in their order; appending a new line adds it at the end |
| `Canvas.RemoveAbsent` | client-data/tools/pencil/doodle-tool.js:159 | removing an id that is not a child changes nothing, so a new line is simply appended |
| `Canvas.AppendChildIdempotent` | client-data/tools/pencil/doodle-tool.js:159 | appending the same line twice is appending it once |
| `Protocol.SendKeepsChildrenFollowLines` | client-data/tools/pencil/doodle-tool.js:24-40 | sending a `line` message, or a point of an announced line, keeps every point after its line's announcement; it updates the announced ids and the point count |
| `Protocol.PointMessageParentAsWritten` | client-data/tools/pencil/doodle-tool.js:10-15 | the `parent` the constructor copies from its receiver; `PointMessageParentUndefined` states what it is under `new` |
| `Protocol.PointMessageParentUndefined` | client-data/tools/pencil/doodle-tool.js:10-15 | the constructor copies `curLineId` from its receiver: under `new`, a fresh object, the `parent` is undefined; only a receiver holding the pencil's `curLineId` would give that id |
| `Doodle.SpacedAt` | client-data/tools/pencil/doodle-tool.js:39-41 | the recorded send times are spaced exactly when every two neighbours are more than 70 ms apart |
| `Doodle.Pencil.constructor` | client-data/tools/pencil/doodle-tool.js:3-7 | the pencil starts idle, with `lastTime` the load time, no rendering line, an empty drawing, cache and outbox, and its invariant established |
| `Doodle.Pencil.GetPathData` | client-data/tools/pencil/doodle-tool.js:81-88 | the line's path data is returned, and the cache entry for the id becomes that data. It was already there when cached, so the cache changes only on a miss. |
| `Doodle.Pencil.AddPoint` | client-data/tools/pencil/doodle-tool.js:91-149 | the element's path becomes `NextPath` of the old one; the cache holds the same list; no other element changes; the invariant is kept |
| `Doodle.Pencil.StorePath` | client-data/tools/pencil/doodle-tool.js:147-148 | the new path is written into the cached list and into the element, and nowhere else |
| `Doodle.AppendSample` | client-data/tools/pencil/doodle-tool.js:92-147 | the imperative body of `addPoint` returns early exactly on a duplicate, with the list untouched; its result is `NextPath` |
| `Doodle.Pencil.CreateLine` | client-data/tools/pencil/doodle-tool.js:151-161 | the element under the id gets the attributes of the message; an existing element keeps its path; it becomes the drawing area's last child. Nothing else changes. |
| `Doodle.Pencil.Draw` | client-data/tools/pencil/doodle-tool.js:53-73 | effect of each message type. `line`: create or update the line and make it the rendering line. `child` of a known line: one `addPoint`. `child` of an unknown line: a stub `M[x, y]` and a diagnostic. `endline`: nothing. Any other type: only a diagnostic. |
| `Doodle.Pencil.DrawLine` | client-data/tools/pencil/doodle-tool.js:55-57 | a `line` message creates or updates its line, which becomes the rendering line |
| `Doodle.Pencil.DrawOrphan` | client-data/tools/pencil/doodle-tool.js:58-64 | a point of an unknown line gives a black, 10-wide, opaque line holding just `M[x, y]`. That line is appended to the drawing area and becomes the rendering line, and the orphan is reported. |
| `Doodle.Pencil.CreateStub` | client-data/tools/pencil/doodle-tool.js:60-63 | the report and the empty stub line, now the rendering line and the last child |
| `Doodle.Pencil.ContinueLine` | client-data/tools/pencil/doodle-tool.js:36-44 | one `child` of the current line is sent and `lastTime` set, exactly when a line is being drawn and more than 70 ms have passed; otherwise nothing changes |
| `Doodle.Pencil.StartLine` | client-data/tools/pencil/doodle-tool.js:17-34 | the fresh id becomes current and its `line` message is sent with the tool's attributes. It is followed by one throttled point. |
| `Doodle.Pencil.StopLine` | client-data/tools/pencil/doodle-tool.js:46-50 | one throttled last point, then no line is being drawn; `lastTime` is kept |
| `Doodle.OrphanPointScenario` | client-data/tools/pencil/doodle-tool.js:58-64 | a lone point `(5, 5)` of the undeclared line `l999` gives a black, 10-wide, opaque line `M[5, 5]` and one orphan report |
| `Doodle.FirstSegmentScenario` | client-data/tools/pencil/doodle-tool.js:94-108 | a declared line with the points (0, 0) and (10, 0) becomes `M[0, 0] C[0, 0, 10, 0, 10, 0]` |
| `Doodle.LocalStrokeScenario` | client-data/tools/pencil/doodle-tool.js:17-50 | over a press, three moves and a release, the move 30 ms after the press is throttled; the line and the other three points are sent in order |

## Left out

- Floating point: coordinates are reals, and `Math.hypot` and the divisions are exact. There is no rounding and no `NaN`. Nothing is said about a `norm` that is tiny but not zero.
- `Math.hypot` is assumed only to be non-negative, positive off the origin and absolutely homogeneous. The proofs need nothing more.
- `performance.now()` becomes parameters of the session methods. `continueLine` reads the clock twice, once in the test (`now`) and once when storing it (`later`, no earlier).
- `Tools.generateUID("l")` becomes the parameter `freshId` of `StartLine`. `Tools.getColor`, `getSize` and `getOpacity` become parameters too.
- `evt.preventDefault()` has no effect on the model's state and is left out.
- The DOM is modelled as a map from id to element (`getElementById`, `createSVGElement`, `setAttribute`), plus a sequence of ids for the drawing area's children. Rendering is not modelled.
- `line.getPathData()` and `line.setPathData(pts)` are reads and writes of an element's command list. The list shared by the cache and `pts` is modelled as equal values written back to both, so aliasing between them is not modelled.
- Only elements made by the pencil are in `svg`. Other tools' elements, and elements removed from the page, are not modelled.
- `Tools.drawAndSend` becomes appending to `outbox`. Its local draw and the network are not modelled.
- `console.error` becomes a `Diagnostic` appended to `diagnostics`.
- Message fields other than those `createLine` and `addPoint` read are not modelled. Neither are sizes and opacities given as strings.
- Three JavaScript edge cases of remote messages are not modelled. Local ids come from `Tools.generateUID("l")` and never hit them:
  - An `opacity` of `null`, which is what JSON makes of `NaN`. `Math.min(1, null)` is 0, so line 158 gives 0.1. The model has only a missing opacity (`None`), which gives 1.
  - The id `""`. `getElementById("")` is always null, so line 153 makes a new element for each such `line` message. Line 59 then takes the orphan path unless the rendering line matches. In the model, `""` is an ordinary key of `svg`.
  - An id that names an `Object.prototype` member, such as `"constructor"` or `"toString"`. `this.pathDataCache[id]` at line 82 is then an inherited property, so `addPoint` throws at line 103, 112 or 147, depending on its `length`. In the model, the cache holds only the entries written to it, so such an id is a plain cache miss.
- The `Tools.add` registration block (lines 166-179) is configuration with no logic, and is not part of this model.
- `Doodle.Pencil.ContinueLine`, `StartLine` and `StopLine` send `Child(curLineId, x, y)`, the evidently intended `PointMessage` (see Findings), and not the message as written.

## Findings

| source | as written | input that shows it | evidently intended | confidence | as-written member | corrected member |
|---|---|---|---|---|---|---|
| client-data/tools/pencil/doodle-tool.js:10-15 | `this.parent = this.curLineId` runs inside `new this.PointMessage(x, y)`. There, `this` is the new message, which has no `curLineId`, so `parent` is undefined. | any `continueLine(x, y)` while a line is being drawn, with `curLineId == "l1"`: the point sent has no `parent` | the point names the line being drawn, `parent == curLineId`, announced earlier by its `line` message | high (reading of JavaScript's `new` semantics; not executed) | `Protocol.PointMessageParentUndefined` (with `Protocol.PointMessageParentAsWritten`) | `Doodle.Pencil.ContinueLine` (sends `Child(curLineId, x, y)`; `Protocol.SendKeepsChildrenFollowLines` keeps every point after its line's announcement) |
