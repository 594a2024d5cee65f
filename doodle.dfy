/**
 * The pencil tool: one object holding the local drawing session (`curLineId`,
 * `lastTime`), the last rendered line, the SVG path elements by id, the order of
 * the drawing area's children, and the path-data cache.  Its methods are
 * `startLine`, `continueLine`, `stopLine`, `draw`, `getPathData`, `addPoint`
 * and `createLine`.
 */
module Doodle {
  import opened Geometry
  import opened PathData
  import opened Smoothing
  import opened Protocol
  import opened Canvas

  /** The throttle: a point is sent only more than this many milliseconds after the last one. */
  const ThrottleMs: real := 70.0

  /**
   * Consecutive times are more than `ThrottleMs` apart; stated on the last time
   * and the rest, see `SpacedAt` for the pointwise form.
   */
  predicate Spaced(times: seq<real>)
    decreases |times|
  {
    var n := |times|;
    n <= 1 || (times[n - 1] - times[n - 2] > ThrottleMs && Spaced(times[..n - 1]))
  }

  /** `Spaced` is the pointwise condition on every pair of neighbours. */
  lemma {:induction false} SpacedAt(times: seq<real>)
    ensures Spaced(times) <==> forall i :: 0 < i < |times| ==> times[i] - times[i - 1] > ThrottleMs
    decreases |times|
  {
    var n := |times|;
    if n > 1 {
      var front := times[..n - 1];
      SpacedAt(front);
      assert forall i :: 0 <= i < n - 1 ==> front[i] == times[i];
    }
  }

  /** A second update of a key overrides the first. */
  lemma UpdateTwice<K, V>(m: map<K, V>, k: K, first: V, second: V)
    ensures m[k := first][k := second] == m[k := second]
  {
  }

  /** Updating a key to the value it has changes nothing. */
  lemma UpdateSame<K, V>(m: map<K, V>, k: K, v: V)
    requires k in m && m[k] == v
    ensures m[k := v] == m
  {
  }

  /** `svg.getElementById(id)`. */
  function Lookup(svg: map<string, Element>, id: string): Option<Element> {
    if id in svg then Some(svg[id]) else None
  }

  class Pencil {
    /** `Math.hypot`. */
    const hypot: (real, real) -> real
    /** The id of the line being drawn, or `""` while the user is not drawing. */
    var curLineId: string
    /** When the last point was sent. */
    var lastTime: real
    /** The id of the last line created by `draw` (`renderingLine`); `None` before the first. */
    var renderingLine: Option<string>
    /** The path elements of the drawing, by id. */
    var svg: map<string, Element>
    /** The ids of the drawing area's children, in document order. */
    var drawingArea: seq<string>
    /** `pathDataCache`: the path data of a line, by id, once read. */
    var pathDataCache: map<string, seq<Command>>
    /** Every message given to `Tools.drawAndSend`, in order. */
    var outbox: seq<Message>
    /** Every error reported on the console, in order. */
    var diagnostics: seq<Diagnostic>
    /** When each `child` message of `outbox` was sent (the clock read by the throttle). */
    ghost var sentTimes: seq<real>

    /** The object invariant. */
    ghost predicate Valid()
      reads this
    {
      HypotLike(hypot) && StrokesOk() && CacheOk() && RenderingLineOk() && DrawingAreaOk() && SessionOk()
    }

    /** Every stroke keeps its shape and the attributes `createLine` gave it. */
    ghost predicate StrokesOk()
      reads this`svg
    {
      forall id :: id in svg ==> StrokeOk(svg[id].path) && AttributesOk(svg[id])
    }

    /** The cache holds, for each id it knows, the element's own path data. */
    ghost predicate CacheOk()
      reads this`svg, this`pathDataCache
    {
      forall id :: id in pathDataCache ==> id in svg && pathDataCache[id] == svg[id].path
    }

    /** The last rendered line is an element of the drawing. */
    ghost predicate RenderingLineOk()
      reads this`svg, this`renderingLine
    {
      renderingLine.Some? ==> renderingLine.value in svg
    }

    /** The drawing area's children are the elements, each once. */
    ghost predicate DrawingAreaOk()
      reads this`svg, this`drawingArea
    {
      Distinct(drawingArea) && forall id :: id in drawingArea <==> id in svg
    }

    /**
     * The local session: every sent point follows the `line` message of its
     * stroke, consecutive points are sent more than 70 ms apart, and the line
     * being drawn was announced.
     */
    ghost predicate SessionOk()
      reads this`outbox, this`sentTimes, this`lastTime, this`curLineId
    {
      && ChildrenFollowLines(outbox)
      && ChildCount(outbox) == |sentTimes|
      && Spaced(sentTimes)
      && (|sentTimes| > 0 ==> sentTimes[|sentTimes| - 1] <= lastTime)
      && (curLineId != "" ==> curLineId in LineIds(outbox))
    }

    /** The pencil as the page loads it, at time `loadTime`, over an empty drawing. */
    constructor (hypot: (real, real) -> real, loadTime: real)
      requires HypotLike(hypot)
      ensures Valid()
      ensures this.hypot == hypot && curLineId == "" && lastTime == loadTime && renderingLine == None
      ensures svg == map[] && drawingArea == [] && pathDataCache == map[]
      ensures outbox == [] && diagnostics == [] && sentTimes == []
    {
      this.hypot := hypot;
      curLineId := "";
      lastTime := loadTime;
      renderingLine := None;
      svg := map[];
      drawingArea := [];
      pathDataCache := map[];
      outbox := [];
      diagnostics := [];
      sentTimes := [];
    }

    /**
     * `getPathData(line)`: the cached path data of the line; the element is read,
     * and its path data cached, only when the cache has no entry for its id.  As
     * the cache agrees with the elements (`CacheOk`), an entry already there is
     * `pts` itself, so updating the entry to `pts` covers both cases.
     */
    method GetPathData(id: string) returns (pts: seq<Command>)
      requires Valid() && id in svg
      modifies this`pathDataCache
      ensures Valid()
      ensures pts == svg[id].path
      ensures pathDataCache == old(pathDataCache)[id := pts]
    {
      if id in pathDataCache {
        pts := pathDataCache[id];
        UpdateSame(pathDataCache, id, pts);
      } else {
        pts := svg[id].path;
        pathDataCache := pathDataCache[id := pts];
      }
    }

    /**
     * `addPoint(line, x, y)`: the line's path data becomes `NextPath` of it, in
     * the element and in the cache alike; nothing else changes.
     */
    method AddPoint(id: string, x: real, y: real)
      requires Valid() && id in svg
      modifies this`pathDataCache, this`svg
      ensures Valid()
      ensures svg == old(svg)[id := old(svg[id]).(path := NextPath(hypot, old(svg[id].path), Point(x, y)))]
      ensures pathDataCache == old(pathDataCache)[id := svg[id].path]
    {
      var pts := GetPathData(id);
      ghost var before := pts;
      var dropped;
      dropped, pts := AppendSample(hypot, pts, x, y);
      if dropped {
        assert svg[id].(path := pts) == svg[id];
        UpdateSame(svg, id, svg[id]);
        return;
      }
      NextPathKeepsStrokeOk(hypot, before, Point(x, y));
      UpdateTwice(old(pathDataCache), id, before, pts);
      StorePath(id, pts);
    }

    /**
     * The end of `addPoint`: `pts.push` has grown the cached list itself, and
     * `line.setPathData(pts)` copies it into the element.
     */
    method StorePath(id: string, pts: seq<Command>)
      requires Valid() && id in svg && StrokeOk(pts)
      modifies this`pathDataCache, this`svg
      ensures Valid()
      ensures svg == old(svg)[id := old(svg[id]).(path := pts)]
      ensures pathDataCache == old(pathDataCache)[id := pts]
    {
      pathDataCache := pathDataCache[id := pts];
      svg := svg[id := svg[id].(path := pts)];
    }

    /**
     * `createLine(lineData)`: the element with that id, or a new empty path,
     * gets the attributes of `lineData` and becomes the drawing area's last child.
     */
    method CreateLine(d: LineData) returns (line: string)
      requires Valid()
      modifies this`svg, this`drawingArea
      ensures Valid()
      ensures line == d.id
      ensures svg == old(svg)[d.id := CreatedElement(Lookup(old(svg), d.id), d)]
      ensures drawingArea == AppendChild(old(drawingArea), d.id)
    {
      var existing := Lookup(svg, d.id);
      svg := svg[d.id := CreatedElement(existing, d)];
      drawingArea := AppendChild(drawingArea, d.id);
      line := d.id;
    }

    /** `draw(data)`: carries out one drawing instruction, local or received. */
    method Draw(data: Message)
      requires Valid()
      requires Decoded(data)
      modifies this`renderingLine, this`svg, this`drawingArea, this`pathDataCache, this`diagnostics
      ensures Valid()
      ensures data.Line? ==>
        && svg == old(svg)[data.data.id := CreatedElement(Lookup(old(svg), data.data.id), data.data)]
        && drawingArea == AppendChild(old(drawingArea), data.data.id)
        && renderingLine == Some(data.data.id)
        && pathDataCache == old(pathDataCache) && diagnostics == old(diagnostics)
      ensures data.Child? && data.parent in old(svg) ==>
        && svg == old(svg)[data.parent := old(svg[data.parent]).(path :=
             NextPath(hypot, old(svg[data.parent].path), Point(data.x, data.y)))]
        && pathDataCache == old(pathDataCache)[data.parent := svg[data.parent].path]
        && drawingArea == old(drawingArea) && renderingLine == old(renderingLine)
        && diagnostics == old(diagnostics)
      ensures data.Child? && data.parent !in old(svg) ==>
        && svg == old(svg)[data.parent := Element("black", 10.0, 1.0, [Command(M, [data.x, data.y])])]
        && pathDataCache == old(pathDataCache)[data.parent := [Command(M, [data.x, data.y])]]
        && drawingArea == old(drawingArea) + [data.parent]
        && renderingLine == Some(data.parent)
        && diagnostics == old(diagnostics) + [OrphanPoint(data.parent)]
      ensures data.EndLine? || data.Unknown? ==>
        && svg == old(svg) && drawingArea == old(drawingArea) && renderingLine == old(renderingLine)
        && pathDataCache == old(pathDataCache)
      ensures data.EndLine? ==> diagnostics == old(diagnostics)
      ensures data.Unknown? ==> diagnostics == old(diagnostics) + [UnknownType(data.kind)]
    {
      match data
      case Line(d) =>
        DrawLine(d);
      case Child(parent, x, y) =>
        var line := if renderingLine == Some(parent) then renderingLine else
          if parent in svg then Some(parent) else None;
        if line.None? {
          DrawOrphan(parent, x, y);
        } else {
          AddPoint(parent, x, y);
        }
      case EndLine =>
      case Unknown(kind) =>
        diagnostics := diagnostics + [UnknownType(kind)];
    }

    /** The branch of `draw` for a `line` message: the line is (re)created and rendered. */
    method DrawLine(d: LineData)
      requires Valid()
      modifies this`renderingLine, this`svg, this`drawingArea
      ensures Valid()
      ensures svg == old(svg)[d.id := CreatedElement(Lookup(old(svg), d.id), d)]
      ensures drawingArea == AppendChild(old(drawingArea), d.id)
      ensures renderingLine == Some(d.id)
    {
      var line := CreateLine(d);
      renderingLine := Some(line);
    }

    /**
     * The branch of `draw` for a point whose line is not in the drawing: the
     * error is reported, a stub line is created under the parent's id, and the
     * point is added to it.
     */
    method DrawOrphan(parent: string, x: real, y: real)
      requires Valid() && parent !in svg
      modifies this`renderingLine, this`svg, this`drawingArea, this`pathDataCache, this`diagnostics
      ensures Valid()
      ensures svg == old(svg)[parent := Element("black", 10.0, 1.0, [Command(M, [x, y])])]
      ensures pathDataCache == old(pathDataCache)[parent := [Command(M, [x, y])]]
      ensures drawingArea == old(drawingArea) + [parent]
      ensures renderingLine == Some(parent)
      ensures diagnostics == old(diagnostics) + [OrphanPoint(parent)]
    {
      CreateStub(parent);
      ghost var stub := Element("black", 10.0, 1.0, []);
      assert NextPath(hypot, [], Point(x, y)) == [Command(M, [x, y])];
      AddPoint(parent, x, y);
      UpdateTwice(old(svg), parent, stub, stub.(path := [Command(M, [x, y])]));
    }

    /**
     * The error report and the stub line of `DrawOrphan`: an empty black line,
     * 10 wide and opaque, under the parent's id, now the rendering line.
     */
    method CreateStub(parent: string)
      requires Valid() && parent !in svg
      modifies this`renderingLine, this`svg, this`drawingArea, this`diagnostics
      ensures Valid()
      ensures svg == old(svg)[parent := Element("black", 10.0, 1.0, [])]
      ensures drawingArea == old(drawingArea) + [parent]
      ensures renderingLine == Some(parent)
      ensures diagnostics == old(diagnostics) + [OrphanPoint(parent)]
    {
      diagnostics := diagnostics + [OrphanPoint(parent)];
      assert parent !in drawingArea;
      RemoveAbsent(drawingArea, parent);
      var created := CreateLine(LineData(parent, None, None, None));
      renderingLine := Some(created);
    }

    /**
     * `continueLine(x, y)`: while a line is being drawn, and more than 70 ms after
     * the last sent point, sends the point `PointMessage(x, y)` of the current
     * line and records the time.  The clock is read twice: `now` by the test,
     * `later` (no earlier) when recording it.  Otherwise nothing changes.
     */
    method ContinueLine(x: real, y: real, now: real, later: real)
      requires Valid()
      requires now <= later
      modifies this`outbox, this`lastTime, this`sentTimes
      ensures Valid()
      ensures var sent := curLineId != "" && now - old(lastTime) > ThrottleMs;
        && (sent ==> outbox == old(outbox) + [Child(curLineId, x, y)] && lastTime == later
                     && sentTimes == old(sentTimes) + [now])
        && (!sent ==> outbox == old(outbox) && lastTime == old(lastTime) && sentTimes == old(sentTimes))
    {
      if curLineId != "" && now - lastTime > ThrottleMs {
        var point := Child(curLineId, x, y);
        SendKeepsChildrenFollowLines(outbox, point);
        outbox := outbox + [point];
        assert (sentTimes + [now])[..|sentTimes|] == sentTimes;
        sentTimes := sentTimes + [now];
        lastTime := later;
      }
    }

    /**
     * `startLine(x, y)`: takes the fresh id `freshId` (from `Tools.generateUID`),
     * sends a `line` message with the tool's current color, size and opacity,
     * and then calls `continueLine(x, y)`, which is throttled like any other call.
     */
    method StartLine(x: real, y: real, freshId: string, color: string, size: real, opacity: real,
                     now: real, later: real)
      requires Valid()
      requires freshId != ""
      requires now <= later
      modifies this`curLineId, this`outbox, this`lastTime, this`sentTimes
      ensures Valid()
      ensures curLineId == freshId
      ensures var announce := Line(LineData(freshId, Some(color), Some(size), Some(opacity)));
        var sent := now - old(lastTime) > ThrottleMs;
        && (sent ==> outbox == old(outbox) + [announce, Child(freshId, x, y)] && lastTime == later
                     && sentTimes == old(sentTimes) + [now])
        && (!sent ==> outbox == old(outbox) + [announce] && lastTime == old(lastTime)
                      && sentTimes == old(sentTimes))
    {
      curLineId := freshId;
      var announce := Line(LineData(freshId, Some(color), Some(size), Some(opacity)));
      SendKeepsChildrenFollowLines(outbox, announce);
      outbox := outbox + [announce];
      ContinueLine(x, y, now, later);
    }

    /**
     * `stopLine(x, y)`: one more `continueLine(x, y)`, throttled as usual, and
     * then no line is being drawn.  `lastTime` is kept for the next line.
     */
    method StopLine(x: real, y: real, now: real, later: real)
      requires Valid()
      requires now <= later
      modifies this`curLineId, this`outbox, this`lastTime, this`sentTimes
      ensures Valid()
      ensures curLineId == ""
      ensures var sent := old(curLineId) != "" && now - old(lastTime) > ThrottleMs;
        && (sent ==> outbox == old(outbox) + [Child(old(curLineId), x, y)] && lastTime == later
                     && sentTimes == old(sentTimes) + [now])
        && (!sent ==> outbox == old(outbox) && lastTime == old(lastTime) && sentTimes == old(sentTimes))
    {
      ContinueLine(x, y, now, later);
      curLineId := "";
    }
  }

  /**
   * The body of `addPoint` on the list `pts`: the command it pushes, after
   * amending the previous one when smoothing; or, for a duplicate sample, the
   * early return (`dropped`), with `pts` as it was.
   */
  method AppendSample(hypot: (real, real) -> real, pts: seq<Command>, x: real, y: real)
    returns (dropped: bool, r: seq<Command>)
    requires HypotLike(hypot)
    requires WellFormed(pts)
    ensures dropped <==> IsDuplicate(pts, Point(x, y))
    ensures r == NextPath(hypot, pts, Point(x, y))
    ensures dropped ==> r == pts
  {
    r := pts;
    var nbr := |r|;
    var npoint: Command;
    if nbr == 0 {
      npoint := Command(M, [x, y]);
    } else if nbr == 1 {
      npoint := Command(C, [r[0].values[0], r[0].values[1], x, y, x, y]);
    } else {
      var prevValues, anteValues := r[nbr - 1].values, r[nbr - 2].values;
      var prevX, prevY := prevValues[|prevValues| - 2], prevValues[|prevValues| - 1];
      var anteX, anteY := anteValues[|anteValues| - 2], anteValues[|anteValues| - 1];
      if (prevX == x && prevY == y) || (anteX == x && anteY == y) {
        return true, r;
      }
      var (c1, c2) := ControlPoints(hypot, Point(anteX, anteY), Point(prevX, prevY), Point(x, y));
      prevValues := prevValues[2 := c1.x][3 := c1.y];
      r := r[nbr - 1 := r[nbr - 1].(values := prevValues)];
      npoint := Command(C, [c2.x, c2.y, x, y, x, y]);
    }
    r := r + [npoint];
    dropped := false;
  }

  /**
   * A point of a line that was never declared: the pencil makes a black,
   * 10 wide, opaque stub for it that starts at the point, and reports it.
   */
  method OrphanPointScenario(hypot: (real, real) -> real) returns (p: Pencil)
    requires HypotLike(hypot)
    ensures p.svg == map["l999" := Element("black", 10.0, 1.0, [Command(M, [5.0, 5.0])])]
    ensures p.renderingLine == Some("l999") && p.drawingArea == ["l999"]
    ensures p.diagnostics == [OrphanPoint("l999")]
  {
    p := new Pencil(hypot, 0.0);
    p.Draw(Child("l999", 5.0, 5.0));
  }

  /**
   * A declared line that gets the points (0, 0) and (10, 0): a move to the
   * first, then a straight curve to the second.
   */
  method FirstSegmentScenario(hypot: (real, real) -> real) returns (p: Pencil)
    requires HypotLike(hypot)
    ensures "l1" in p.svg
    ensures p.svg["l1"].path == [Command(M, [0.0, 0.0]), Command(C, [0.0, 0.0, 10.0, 0.0, 10.0, 0.0])]
    ensures p.diagnostics == []
  {
    ghost var start := [Command(M, [0.0, 0.0])];
    ghost var segment := [Command(M, [0.0, 0.0]), Command(C, [0.0, 0.0, 10.0, 0.0, 10.0, 0.0])];
    assert NextPath(hypot, [], Point(0.0, 0.0)) == start;
    assert NextPath(hypot, start, Point(10.0, 0.0)) == segment;
    p := new Pencil(hypot, 0.0);
    p.Draw(Line(LineData("l1", Some("#ff0000"), Some(4.0), Some(0.5))));
    assert p.svg["l1"].path == [];
    p.Draw(Child("l1", 0.0, 0.0));
    assert p.svg["l1"].path == start;
    p.Draw(Child("l1", 10.0, 0.0));
  }

  /**
   * A local stroke: the press sends the line and its first point, a move 30 ms
   * later is throttled, a move 100 ms after the press and the release 200 ms
   * after it are sent.
   */
  method LocalStrokeScenario(hypot: (real, real) -> real) returns (p: Pencil)
    requires HypotLike(hypot)
    ensures p.curLineId == ""
    ensures p.outbox == [
      Line(LineData("l1", Some("black"), Some(4.0), Some(1.0))),
      Child("l1", 0.0, 0.0), Child("l1", 20.0, 5.0), Child("l1", 30.0, 5.0)]
  {
    p := new Pencil(hypot, 0.0);
    p.StartLine(0.0, 0.0, "l1", "black", 4.0, 1.0, 1000.0, 1000.0);
    p.ContinueLine(10.0, 0.0, 1030.0, 1030.0);
    p.ContinueLine(20.0, 5.0, 1100.0, 1100.0);
    p.StopLine(30.0, 5.0, 1200.0, 1200.0);
  }
}
