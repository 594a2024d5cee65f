/**
 * The SVG side of a stroke: the attributes `createLine` gives a path element,
 * and the order of the children of the drawing area.
 */
module Canvas {
  import opened PathData
  import opened Protocol

  /** A path element: its `stroke`, `stroke-width` and `opacity` attributes and its path data. */
  datatype Element = Element(stroke: string, strokeWidth: real, opacity: real, path: seq<Command>)

  /** `color || "black"`: a missing or empty color becomes black. */
  function StrokeColor(color: Option<string>): (r: string)
    ensures r != ""
    ensures color.Some? && color.value != "" ==> r == color.value
    ensures color.None? || color.value == "" ==> r == "black"
  {
    if color.Some? && color.value != "" then color.value else "black"
  }

  /** `size || 10`: a missing size, or a size of 0, becomes 10. */
  function StrokeWidth(size: Option<real>): (r: real)
    ensures r != 0.0
    ensures size.Some? && size.value != 0.0 ==> r == size.value
    ensures size.None? || size.value == 0.0 ==> r == 10.0
  {
    if size.Some? && size.value != 0.0 then size.value else 10.0
  }

  /**
   * `Math.max(0.1, Math.min(1, opacity)) || 1`: the opacity clamped into
   * [0.1, 1]; a missing opacity makes the clamp `NaN`, which becomes 1.
   */
  function Opacity(opacity: Option<real>): (r: real)
    ensures 0.1 <= r <= 1.0
    ensures opacity.Some? && 0.1 <= opacity.value <= 1.0 ==> r == opacity.value
    ensures opacity.Some? && opacity.value < 0.1 ==> r == 0.1
    ensures opacity.Some? && opacity.value > 1.0 ==> r == 1.0
    ensures opacity.None? ==> r == 1.0
  {
    match opacity
    case None => 1.0
    case Some(o) =>
      var low := if o < 1.0 then o else 1.0;
      if 0.1 < low then low else 0.1
  }

  /** The attributes `createLine` always leaves on an element. */
  predicate AttributesOk(e: Element) {
    e.stroke != "" && e.strokeWidth != 0.0 && 0.1 <= e.opacity <= 1.0
  }

  /**
   * The element `createLine(d)` leaves under `d.id`: the element already there
   * (or a new, empty path) with its three attributes set from `d`.
   */
  function CreatedElement(existing: Option<Element>, d: LineData): (e: Element)
    ensures AttributesOk(e)
    ensures existing.Some? ==> e.path == existing.value.path
    ensures existing.None? ==> e.path == []
  {
    var path := if existing.Some? then existing.value.path else [];
    Element(StrokeColor(d.color), StrokeWidth(d.size), Opacity(d.opacity), path)
  }

  /** The stub made for an orphan point is black, 10 wide and opaque. */
  lemma StubAttributes(existing: Option<Element>, parent: string)
    ensures var e := CreatedElement(existing, LineData(parent, None, None, None));
      e.stroke == "black" && e.strokeWidth == 10.0 && e.opacity == 1.0
  {
  }

  /** No id occurs twice. */
  predicate Distinct(s: seq<string>) {
    forall i, j :: 0 <= i < j < |s| ==> s[i] != s[j]
  }

  /** `s` without `id`, the others in their order. */
  function Remove(s: seq<string>, id: string): (r: seq<string>)
    ensures forall x :: x in r <==> x in s && x != id
    ensures Distinct(s) ==> Distinct(r)
    ensures |r| <= |s|
    decreases |s|
  {
    if s == [] then []
    else
      var rest := Remove(s[1..], id);
      if s[0] == id then rest
      else
        assert Distinct(s) ==> s[0] !in rest;
        [s[0]] + rest
  }

  /**
   * `drawingArea.appendChild(line)`: the element becomes the last child, and is
   * taken out of its old place if it was already a child.
   */
  function AppendChild(children: seq<string>, id: string): (r: seq<string>)
    ensures |r| > 0 && r[|r| - 1] == id
    ensures forall x :: x in r <==> x in children || x == id
    ensures Distinct(children) ==> Distinct(r)
    ensures r == Remove(children, id) + [id]
  {
    var rest := Remove(children, id);
    assert id !in rest;
    assert forall i :: 0 <= i < |rest| ==> (rest + [id])[i] == rest[i];
    rest + [id]
  }

  lemma {:induction false} RemoveAbsent(s: seq<string>, id: string)
    requires id !in s
    ensures Remove(s, id) == s
    decreases |s|
  {
    if s != [] {
      RemoveAbsent(s[1..], id);
    }
  }

  lemma {:induction false} RemoveConcat(a: seq<string>, b: seq<string>, id: string)
    ensures Remove(a + b, id) == Remove(a, id) + Remove(b, id)
    decreases |a|
  {
    if a != [] {
      assert (a + b)[1..] == a[1..] + b;
      RemoveConcat(a[1..], b, id);
    } else {
      assert a + b == b;
    }
  }
  /** Taking a child out keeps the other children in their order. */
  lemma RemoveKeepsOrder(before: seq<string>, after: seq<string>, id: string)
    requires id !in before && id !in after
    ensures Remove(before + [id] + after, id) == before + after
  {
    var taken := Remove(before + [id], id);
    RemoveConcat(before + [id], after, id);
    RemoveConcat(before, [id], id);
    assert Remove([id], id) == [] by {
      assert [id][1..] == [];
    }
    RemoveAbsent(before, id);
    RemoveAbsent(after, id);
    assert taken == before;
  }

  /**
   * `appendChild` of a child moves it to the end and keeps the other children
   * in their order; of a new element, it adds it at the end.
   */
  lemma AppendChildMoves(before: seq<string>, after: seq<string>, id: string)
    requires id !in before && id !in after
    ensures AppendChild(before + [id] + after, id) == before + after + [id]
    ensures AppendChild(before + after, id) == before + after + [id]
  {
    RemoveKeepsOrder(before, after, id);
    RemoveAbsent(before + after, id);
  }


  /** Appending a child twice is appending it once: a replayed `line` moves nothing. */
  lemma AppendChildIdempotent(children: seq<string>, id: string)
    ensures AppendChild(AppendChild(children, id), id) == AppendChild(children, id)
  {
    var once := Remove(children, id);
    RemoveConcat(once, [id], id);
    RemoveAbsent(once, id);
    assert Remove([id], id) == [];
  }

  /** Replaying a `line` message leaves the element as the first one did. */
  lemma CreatedElementIdempotent(existing: Option<Element>, d: LineData)
    ensures CreatedElement(Some(CreatedElement(existing, d)), d) == CreatedElement(existing, d)
  {
  }
}
