/** The messages the pencil sends and draws, and the diagnostics it reports. */
module Protocol {

  datatype Option<T> = None | Some(value: T)

  /**
   * The fields of a `line` message that `createLine` reads; a field the sender
   * left out is `None`.  The stub made for an orphan point has only its `id`.
   */
  datatype LineData = LineData(id: string, color: Option<string>, size: Option<real>, opacity: Option<real>)

  /**
   * A drawing instruction, by its `type`: `line` declares a stroke, `child` is
   * one point of the stroke `parent` (the `PointMessage`), `endline` is
   * reserved, and any other type is `Unknown`; `Decoded` says that an
   * `Unknown` kind is none of the three handled types.
   */
  datatype Message =
    | Line(data: LineData)
    | Child(parent: string, x: real, y: real)
    | EndLine
    | Unknown(kind: string)

  /** A message as read from its `type`: an `Unknown` kind is never a handled one. */
  predicate Decoded(m: Message) {
    m.Unknown? ==> m.kind != "line" && m.kind != "child" && m.kind != "endline"
  }

  /** What the pencil reports on the console. */
  datatype Diagnostic = OrphanPoint(parent: string) | UnknownType(kind: string)

  /** Reads a field of a JavaScript object; a field it lacks reads as `undefined`, here `None`. */
  function ReadField(obj: map<string, string>, name: string): Option<string> {
    if name in obj then Some(obj[name]) else None
  }

  /**
   * The `parent` that the `PointMessage` constructor gives a point, as written:
   * it sets `type` on its receiver and then copies the receiver's `curLineId`.
   */
  function PointMessageParentAsWritten(receiver: map<string, string>): Option<string> {
    var message := receiver["type" := "child"];
    ReadField(message, "curLineId")
  }

  /**
   * The receiver matters.  Under `new this.PointMessage(x, y)` it is a fresh
   * object whose prototype chain holds no `curLineId`, so `parent` is undefined;
   * only a call on the pencil itself would copy the current line's id.
   */
  lemma PointMessageParentUndefined(curLineId: string)
    ensures PointMessageParentAsWritten(map[]) == None
    ensures PointMessageParentAsWritten(map["curLineId" := curLineId]) == Some(curLineId)
  {
  }

  /** The ids declared by the `line` messages of `out`. */
  function LineIds(out: seq<Message>): (ids: set<string>)
    ensures forall i :: 0 <= i < |out| && out[i].Line? ==> out[i].data.id in ids
    decreases |out|
  {
    if out == [] then {}
    else LineIds(out[..|out| - 1]) + (if out[|out| - 1].Line? then {out[|out| - 1].data.id} else {})
  }

  /** The number of `child` messages in `out`. */
  function ChildCount(out: seq<Message>): nat
    decreases |out|
  {
    if out == [] then 0 else ChildCount(out[..|out| - 1]) + (if out[|out| - 1].Child? then 1 else 0)
  }

  /** Every `child` message comes after a `line` message declaring its parent. */
  predicate ChildrenFollowLines(out: seq<Message>) {
    forall i :: 0 <= i < |out| && out[i].Child? ==> out[i].parent in LineIds(out[..i])
  }

  /** Sending a `line` message, or a `child` of a declared stroke, keeps `ChildrenFollowLines`. */
  lemma SendKeepsChildrenFollowLines(out: seq<Message>, m: Message)
    requires ChildrenFollowLines(out)
    requires m.Child? ==> m.parent in LineIds(out)
    ensures ChildrenFollowLines(out + [m])
    ensures LineIds(out + [m]) == LineIds(out) + (if m.Line? then {m.data.id} else {})
    ensures ChildCount(out + [m]) == ChildCount(out) + (if m.Child? then 1 else 0)
  {
    var out' := out + [m];
    assert out'[..|out|] == out;
    forall i | 0 <= i < |out'| && out'[i].Child? ensures out'[i].parent in LineIds(out'[..i]) {
      if i < |out| {
        assert out'[..i] == out[..i];
      }
    }
  }
}
