/**
 * The footprint pad of a library package: nine value attributes, derived queries
 * (layer, outline, painter path, serialization) and the notifications that keep a
 * registered graphics item in step with the pad.
 */
module FootprintPads {
  import opened Geometry

  datatype BoardSide = Top | Bottom | Tht

  datatype Shape = RoundShape | RectShape | OctagonShape

  /**
   * Names of graphics layers. The three pad layers have their own constructors;
   * inner copper layers are numbered; every other layer is kept by its name.
   */
  datatype Layer = TopCopper | BottomCopper | BoardPadsTht | InnerCopper(number: nat) | OtherLayer(name: string)
  // `OtherLayer` stands only for names of layers that are neither copper layers nor
  // the THT pads layer: a copper layer's name is always written with its own
  // constructor, so the layer names and these values correspond one to one.

  /** `GraphicsLayer::isCopperLayer`: the outer and the inner copper layers. */
  predicate IsCopperLayer(layer: Layer) {
    layer.TopCopper? || layer.BottomCopper? || layer.InnerCopper?
  }

  /**
   * The painter path a pad hands to its graphics item: its outline, with the
   * drill hole (an obround of the drill size) subtracted for through-hole pads.
   * The subtraction itself is floating-point geometry and is kept symbolic.
   */
  datatype PainterPath = Plain(outline: Path) | WithHole(outline: Path, hole: Path)

  /** One S-expression child value written by `serialize`. */
  datatype SValue = UuidValue(uuid: Uuid) | SideValue(side: BoardSide) | ShapeValue(shape: Shape)
                  | AngleValue(angle: Angle) | PointValue(point: Point)

  /** A child of the pad's S-expression node: a bare token or a named child. */
  datatype SChild = Token(value: SValue) | Node(name: string, value: SValue, lineBreak: bool)

  /** The key of a child: its name, or the empty string for a bare token. */
  function Key(child: SChild): string {
    match child
    case Token(_) => ""
    case Node(name, _, _) => name
  }

  /** The values of the children with the given key, in order, as a reader of the node looks them up. */
  function ValuesUnder(children: seq<SChild>, key: string): seq<SValue> {
    if children == [] then []
    else (if Key(children[0]) == key then [children[0].value] else []) + ValuesUnder(children[1..], key)
  }

  /** A key that no child carries has no values. */
  lemma {:induction false} ValuesUnderAbsent(children: seq<SChild>, key: string)
    requires forall j :: 0 <= j < |children| ==> Key(children[j]) != key
    ensures ValuesUnder(children, key) == []
  {
    if children != [] {
      ValuesUnderAbsent(children[1..], key);
    }
  }

  /** When the keys are distinct, each key finds exactly its own child's value. */
  lemma {:induction false} ValuesUnderDistinctKeys(children: seq<SChild>, i: nat)
    requires i < |children|
    requires forall j, k :: 0 <= j < k < |children| ==> Key(children[j]) != Key(children[k])
    ensures ValuesUnder(children, Key(children[i])) == [children[i].value]
  {
    if i == 0 {
      ValuesUnderAbsent(children[1..], Key(children[0]));
    } else {
      ValuesUnderDistinctKeys(children[1..], i - 1);
    }
  }

  /** Children keyed in the file format's order carry one value under each key. */
  lemma KeyedValues(children: seq<SChild>)
    requires |children| == |SerializedKeys|
    requires forall i :: 0 <= i < |children| ==> Key(children[i]) == SerializedKeys[i]
    ensures ValuesUnder(children, "") == [children[0].value]
    ensures ValuesUnder(children, "side") == [children[1].value]
    ensures ValuesUnder(children, "shape") == [children[2].value]
    ensures ValuesUnder(children, "position") == [children[3].value]
    ensures ValuesUnder(children, "rotation") == [children[4].value]
    ensures ValuesUnder(children, "size") == [children[5].value]
    ensures ValuesUnder(children, "drill_size") == [children[6].value]
  {
    SerializedKeysDistinct();
    forall i | 0 <= i < |children|
      ensures ValuesUnder(children, SerializedKeys[i]) == [children[i].value]
    {
      ValuesUnderDistinctKeys(children, i);
    }
    assert ValuesUnder(children, SerializedKeys[0]) == [children[0].value];
    assert ValuesUnder(children, SerializedKeys[1]) == [children[1].value];
    assert ValuesUnder(children, SerializedKeys[2]) == [children[2].value];
    assert ValuesUnder(children, SerializedKeys[3]) == [children[3].value];
    assert ValuesUnder(children, SerializedKeys[4]) == [children[4].value];
    assert ValuesUnder(children, SerializedKeys[5]) == [children[5].value];
    assert ValuesUnder(children, SerializedKeys[6]) == [children[6].value];
  }

  /** The keys of the pad's children in the order the file format fixes. */
  const SerializedKeys: seq<string> := ["", "side", "shape", "position", "rotation", "size", "drill_size"]

  /** No key is written twice. */
  lemma SerializedKeysDistinct()
    ensures forall j, k :: 0 <= j < k < |SerializedKeys| ==> SerializedKeys[j] != SerializedKeys[k]
  {
    assert forall k :: 0 < k < |SerializedKeys| ==> |SerializedKeys[k]| > 0;
    assert SerializedKeys[1][2] != SerializedKeys[5][2];
  }

  /** The nine attributes of a pad, without its graphics item registration. */
  datatype PadData = PadData(
    packagePadUuid: Uuid,
    position: Point,
    rotation: Angle,
    shape: Shape,
    width: PositiveLength,
    height: PositiveLength,
    drillWidth: PositiveLength,
    drillHeight: PositiveLength,
    boardSide: BoardSide)
  {
    /**
     * `getLayerName`: the layer the pad is drawn on, the copper layer of its side
     * for a single-sided pad and the THT pads layer for a through-hole pad.
     */
    function LayerName(): (r: Layer)
      ensures IsCopperLayer(r) <==> boardSide != Tht
      ensures r == TopCopper <==> boardSide == Top
      ensures r == BottomCopper <==> boardSide == Bottom
      ensures r == BoardPadsTht <==> boardSide == Tht
    {
      match boardSide
      case Top => TopCopper
      case Bottom => BottomCopper
      case Tht => BoardPadsTht
    }

    /** `isOnLayer`: a through-hole pad is on every copper layer, any other pad on its own layer only. */
    predicate IsOnLayer(layer: Layer)
      ensures IsOnLayer(layer) ==> IsCopperLayer(layer)
      ensures layer == TopCopper ==> (IsOnLayer(layer) <==> boardSide != Bottom)
      ensures layer == BottomCopper ==> (IsOnLayer(layer) <==> boardSide != Top)
      ensures layer.InnerCopper? ==> (IsOnLayer(layer) <==> boardSide == Tht)
    {
      if boardSide == Tht then IsCopperLayer(layer) else layer == LayerName()
    }

    /**
     * `getOutline`: the pad's shape grown by `expansion` on every side; empty when
     * the grown width or height is not positive.
     */
    function Outline(expansion: Length): (r: Path)
      ensures r.Empty? <==> width + 2 * expansion <= 0 || height + 2 * expansion <= 0
      ensures !r.Empty? ==> r.width == width + 2 * expansion && r.height == height + 2 * expansion
      ensures r.Obround? <==> !r.Empty? && shape == RoundShape
      ensures r.CenteredRect? <==> !r.Empty? && shape == RectShape
      ensures r.Octagon? <==> !r.Empty? && shape == OctagonShape
    {
      var w := width + expansion * 2;
      var h := height + expansion * 2;
      if w > 0 && h > 0 then
        match shape
        case RoundShape => Obround(w, h)
        case RectShape => CenteredRect(w, h)
        case OctagonShape => Octagon(w, h)
      else
        Empty
    }

    /** `toQPainterPathPx`: the outline, minus the drill hole when the pad is through-hole. */
    function PainterPathPx(expansion: Length): (r: PainterPath)
      ensures r.outline == Outline(expansion)
      ensures r.WithHole? <==> boardSide == Tht
      ensures r.WithHole? ==> r.hole == Obround(drillWidth, drillHeight)
    {
      if boardSide == Tht then
        WithHole(Outline(expansion), Obround(drillWidth, drillHeight))
      else
        Plain(Outline(expansion))
    }

    /** `serialize`: the pad's children in the file format's fixed order. */
    function Serialize(): (r: seq<SChild>)
      ensures |r| == |SerializedKeys|
      ensures forall i :: 0 <= i < |r| ==> Key(r[i]) == SerializedKeys[i]
      ensures ValuesUnder(r, "") == [UuidValue(packagePadUuid)]
      ensures ValuesUnder(r, "side") == [SideValue(boardSide)]
      ensures ValuesUnder(r, "shape") == [ShapeValue(shape)]
      ensures ValuesUnder(r, "position") == [PointValue(position)]
      ensures ValuesUnder(r, "rotation") == [AngleValue(rotation)]
      ensures ValuesUnder(r, "size") == [PointValue(Point(width, height))]
      ensures ValuesUnder(r, "drill_size") == [PointValue(Point(drillWidth, drillHeight))]
      ensures forall i :: 0 <= i < |r| && r[i].Node? ==> (r[i].lineBreak <==> Key(r[i]) == "position")
    {
      var r := [ Token(UuidValue(packagePadUuid)),
                 Node("side", SideValue(boardSide), false),
                 Node("shape", ShapeValue(shape), false),
                 Node("position", PointValue(position), true),
                 Node("rotation", AngleValue(rotation), false),
                 Node("size", PointValue(Point(width, height)), false),
                 Node("drill_size", PointValue(Point(drillWidth, drillHeight)), false) ];
      assert forall i :: 0 <= i < |r| ==> Key(r[i]) == SerializedKeys[i];
      KeyedValues(r);
      r
    }
  }

  /** A pad that is not through-hole is on exactly one layer, the one it is drawn on. */
  lemma SingleSidedPadIsOnItsLayerOnly(pad: PadData, layer: Layer)
    requires pad.boardSide != Tht
    ensures pad.IsOnLayer(pad.LayerName())
    ensures IsCopperLayer(pad.LayerName())
    ensures pad.IsOnLayer(layer) <==> layer == pad.LayerName()
  {
  }

  /** A through-hole pad is on every copper layer, and on no other layer. */
  lemma ThroughHolePadIsOnEveryCopperLayer(pad: PadData, layer: Layer)
    requires pad.boardSide == Tht
    ensures pad.IsOnLayer(TopCopper) && pad.IsOnLayer(BottomCopper)
    ensures pad.IsOnLayer(layer) <==> IsCopperLayer(layer)
  {
  }

  /** The layer name tells the board side apart: `getLayerName` is one-to-one. */
  lemma LayerNameDeterminesSide(a: PadData, b: PadData)
    requires a.LayerName() == b.LayerName()
    ensures a.boardSide == b.boardSide
  {
  }

  /** Without expansion the outline is never empty and has the pad's own size. */
  lemma OutlineWithoutExpansion(pad: PadData)
    ensures !pad.Outline(0).Empty?
    ensures pad.Outline(0).width == pad.width && pad.Outline(0).height == pad.height
  {
  }

  /**
   * Growing the expansion never empties a non-empty outline: it keeps the kind of
   * path and adds twice the extra expansion to both dimensions.
   */
  lemma OutlineGrowsWithExpansion(pad: PadData, e1: Length, e2: Length)
    requires e1 <= e2
    requires !pad.Outline(e1).Empty?
    ensures !pad.Outline(e2).Empty?
    ensures pad.Outline(e2).width == pad.Outline(e1).width + 2 * (e2 - e1)
    ensures pad.Outline(e2).height == pad.Outline(e1).height + 2 * (e2 - e1)
    ensures pad.Outline(e2).Obround? == pad.Outline(e1).Obround?
    ensures pad.Outline(e2).CenteredRect? == pad.Outline(e1).CenteredRect?
  {
  }

  /** The drill hole of a through-hole pad does not depend on the expansion of its outline. */
  lemma HoleIgnoresExpansion(pad: PadData, e1: Length, e2: Length)
    requires pad.boardSide == Tht
    ensures pad.PainterPathPx(e1).WithHole? && pad.PainterPathPx(e2).WithHole?
    ensures pad.PainterPathPx(e1).hole == pad.PainterPathPx(e2).hole == Obround(pad.drillWidth, pad.drillHeight)
  {
  }

  /** Serialization loses no attribute: pads with the same children are equal. */
  lemma SerializeIsInjective(a: PadData, b: PadData)
    requires a.Serialize() == b.Serialize()
    ensures a == b
  {
    assert a.Serialize()[5] == b.Serialize()[5];
    assert a.Serialize()[6] == b.Serialize()[6];
  }

  // ---------------------------------------------------------------------------
  // Setters as values, and the notifications each setter sends
  // ---------------------------------------------------------------------------

  /** A call of one of the nine setters, with its argument. */
  datatype Edit =
    | EditPackagePadUuid(uuid: Uuid)
    | EditBoardSide(side: BoardSide)
    | EditShape(shape: Shape)
    | EditWidth(width: PositiveLength)
    | EditHeight(height: PositiveLength)
    | EditPosition(position: Point)
    | EditRotation(rotation: Angle)
    | EditDrillWidth(drillWidth: PositiveLength)
    | EditDrillHeight(drillHeight: PositiveLength)

  /** A call the pad makes on its registered graphics item. */
  datatype Notification =
    | NotifyPosition(position: Point)
    | NotifyRotation(rotation: Angle)
    | NotifyShape(path: PainterPath)
    | NotifyLayerName(layer: Layer)

  /** The attributes after a setter call: its own field replaced, the other eight kept. */
  function Apply(pad: PadData, edit: Edit): PadData {
    match edit
    case EditPackagePadUuid(u) => pad.(packagePadUuid := u)
    case EditBoardSide(s) => pad.(boardSide := s)
    case EditShape(s) => pad.(shape := s)
    case EditWidth(w) => pad.(width := w)
    case EditHeight(h) => pad.(height := h)
    case EditPosition(p) => pad.(position := p)
    case EditRotation(r) => pad.(rotation := r)
    case EditDrillWidth(w) => pad.(drillWidth := w)
    case EditDrillHeight(h) => pad.(drillHeight := h)
  }

  /**
   * The notifications a setter sends to a registered graphics item, computed from
   * the attributes after its assignment: position and rotation are forwarded, the
   * size, shape and drill setters resend the painter path, the board side setter
   * sends the layer name and then the painter path, the package pad setter nothing.
   */
  function Emitted(pad: PadData, edit: Edit): seq<Notification> {
    var after := Apply(pad, edit);
    match edit
    case EditPackagePadUuid(_) => []
    case EditPosition(_) => [NotifyPosition(after.position)]
    case EditRotation(_) => [NotifyRotation(after.rotation)]
    case EditBoardSide(_) => [NotifyLayerName(after.LayerName()), NotifyShape(after.PainterPathPx(0))]
    case _ => [NotifyShape(after.PainterPathPx(0))]
  }

  /** The attributes after a sequence of setter calls, in order. */
  function ApplyAll(pad: PadData, edits: seq<Edit>): PadData
    decreases |edits|
  {
    if edits == [] then pad else ApplyAll(Apply(pad, edits[0]), edits[1..])
  }

  /** The notifications sent by a sequence of setter calls, in order. */
  function EmittedAll(pad: PadData, edits: seq<Edit>): seq<Notification>
    decreases |edits|
  {
    if edits == [] then [] else Emitted(pad, edits[0]) + EmittedAll(Apply(pad, edits[0]), edits[1..])
  }

  /** Unfolds the first setter call of a sequence, for the attributes and for the notifications. */
  lemma ApplyAllCons(pad: PadData, edit: Edit, edits: seq<Edit>)
    ensures ApplyAll(pad, [edit] + edits) == ApplyAll(Apply(pad, edit), edits)
    ensures EmittedAll(pad, [edit] + edits) == Emitted(pad, edit) + EmittedAll(Apply(pad, edit), edits)
  {
    assert ([edit] + edits)[0] == edit;
    assert ([edit] + edits)[1..] == edits;
  }

  /** Setter calls in two runs: the second run starts from where the first one left the pad. */
  lemma {:induction false} ApplyAllAppend(pad: PadData, first: seq<Edit>, second: seq<Edit>)
    ensures ApplyAll(pad, first + second) == ApplyAll(ApplyAll(pad, first), second)
    ensures EmittedAll(pad, first + second) == EmittedAll(pad, first) + EmittedAll(ApplyAll(pad, first), second)
    decreases |first|
  {
    if first == [] {
      assert first + second == second;
    } else {
      var rest := first[1..];
      var next := Apply(pad, first[0]);
      assert first == [first[0]] + rest;
      Associates([first[0]], rest, second);
      ApplyAllCons(pad, first[0], rest + second);
      ApplyAllCons(pad, first[0], rest);
      ApplyAllAppend(next, rest, second);
      Associates(Emitted(pad, first[0]), EmittedAll(next, rest), EmittedAll(ApplyAll(next, rest), second));
    }
  }

  /** Four runs of setter calls in a row, each starting where the previous one left the pad. */
  lemma ApplyFourRuns(pad: PadData, a: seq<Edit>, b: seq<Edit>, c: seq<Edit>, d: seq<Edit>)
    ensures ApplyAll(pad, a + (b + (c + d))) == ApplyAll(ApplyAll(ApplyAll(ApplyAll(pad, a), b), c), d)
    ensures EmittedAll(pad, a + (b + (c + d)))
         == EmittedAll(pad, a) + EmittedAll(ApplyAll(pad, a), b) + EmittedAll(ApplyAll(ApplyAll(pad, a), b), c)
            + EmittedAll(ApplyAll(ApplyAll(ApplyAll(pad, a), b), c), d)
  {
    var p1 := ApplyAll(pad, a);
    var p2 := ApplyAll(p1, b);
    ApplyAllAppend(pad, a, b + (c + d));
    ApplyAllAppend(p1, b, c + d);
    ApplyAllAppend(p2, c, d);
    var x, y, z, w := EmittedAll(pad, a), EmittedAll(p1, b), EmittedAll(p2, c), EmittedAll(ApplyAll(p2, c), d);
    calc {
      x + (y + (z + w));
      { Associates(y, z, w); }
      x + ((y + z) + w);
      { Associates(x, y + z, w); }
      (x + (y + z)) + w;
      { Associates(x, y, z); }
      ((x + y) + z) + w;
    }
  }

  /** Notifications appended run by run form the notifications of all the runs, appended once. */
  lemma AppendedInFourRuns<T>(start: seq<T>, a: seq<T>, b: seq<T>, c: seq<T>, d: seq<T>)
    ensures start + a + b + c + d == start + (a + b + c + d)
  {
    Associates(start, a, b);
    Associates(start, a + b, c);
    Associates(start, a + b + c, d);
  }

  /** What a graphics item displays: the last value it was told for each of its four properties. */
  datatype View = View(position: Point, rotation: Angle, shape: PainterPath, layer: Layer)

  /** The view after one notification. */
  function Shown(view: View, n: Notification): View {
    match n
    case NotifyPosition(p) => view.(position := p)
    case NotifyRotation(r) => view.(rotation := r)
    case NotifyShape(s) => view.(shape := s)
    case NotifyLayerName(l) => view.(layer := l)
  }

  /** The view after a sequence of notifications. */
  function ShownAll(view: View, ns: seq<Notification>): View
    decreases |ns|
  {
    if ns == [] then view else ShownAll(Shown(view, ns[0]), ns[1..])
  }

  /** The view that matches a pad: its position, rotation, painter path and layer. */
  function ViewOf(pad: PadData): View {
    View(pad.position, pad.rotation, pad.PainterPathPx(0), pad.LayerName())
  }

  lemma {:induction false} ShownAllAppend(view: View, ns: seq<Notification>, ms: seq<Notification>)
    ensures ShownAll(view, ns + ms) == ShownAll(ShownAll(view, ns), ms)
    decreases |ns|
  {
    if ns == [] {
      assert ns + ms == ms;
    } else {
      assert (ns + ms)[0] == ns[0];
      assert (ns + ms)[1..] == ns[1..] + ms;
      ShownAllAppend(Shown(view, ns[0]), ns[1..], ms);
    }
  }

  /**
   * The notification mapping is complete: a graphics item that showed the pad
   * before a setter call shows it again after the notifications of that call.
   */
  lemma EditKeepsViewInSync(pad: PadData, edit: Edit)
    ensures ShownAll(ViewOf(pad), Emitted(pad, edit)) == ViewOf(Apply(pad, edit))
  {
    var ns := Emitted(pad, edit);
    match edit
    case EditBoardSide(_) =>
      var v1 := Shown(ViewOf(pad), ns[0]);
      assert ns[1..] == [ns[1]];
      assert ShownAll(v1, [ns[1]]) == ShownAll(Shown(v1, ns[1]), []);
    case _ =>
  }

  /** The same for any sequence of setter calls. */
  lemma {:induction false} EditsKeepViewInSync(pad: PadData, edits: seq<Edit>)
    ensures ShownAll(ViewOf(pad), EmittedAll(pad, edits)) == ViewOf(ApplyAll(pad, edits))
    decreases |edits|
  {
    if edits != [] {
      var next := Apply(pad, edits[0]);
      ShownAllAppend(ViewOf(pad), Emitted(pad, edits[0]), EmittedAll(next, edits[1..]));
      EditKeepsViewInSync(pad, edits[0]);
      EditsKeepViewInSync(next, edits[1..]);
    }
  }

  // ---------------------------------------------------------------------------
  // The graphics item and the pad
  // ---------------------------------------------------------------------------

  /**
   * The graphics item a pad may notify. Only the sequence of calls it received
   * is kept.
   */
  class FootprintPadGraphicsItem {
    ghost var received: seq<Notification>

    constructor()
      ensures received == []
    {
      received := [];
    }
  }

  class FootprintPad {
    var packagePadUuid: Uuid
    var position: Point
    var rotation: Angle
    var shape: Shape
    var width: PositiveLength
    var height: PositiveLength
    var drillWidth: PositiveLength
    var drillHeight: PositiveLength
    var boardSide: BoardSide
    /** The non-owning pointer to the registered graphics item, or null. */
    var graphicsItem: FootprintPadGraphicsItem?

    /** The nine attributes as one value. */
    function Data(): PadData
      reads this
    {
      PadData(packagePadUuid, position, rotation, shape, width, height, drillWidth, drillHeight, boardSide)
    }

    constructor(padUuid: Uuid, pos: Point, rot: Angle, shape: Shape,
                width: PositiveLength, height: PositiveLength,
                drillWidth: PositiveLength, drillHeight: PositiveLength, side: BoardSide)
      ensures Data() == PadData(padUuid, pos, rot, shape, width, height, drillWidth, drillHeight, side)
      ensures graphicsItem == null
    {
      packagePadUuid := padUuid;
      position := pos;
      rotation := rot;
      this.shape := shape;
      this.width := width;
      this.height := height;
      this.drillWidth := drillWidth;
      this.drillHeight := drillHeight;
      boardSide := side;
      graphicsItem := null;
    }

    /** The copy constructor: the same attributes, and no graphics item registered. */
    constructor Copy(other: FootprintPad)
      ensures Data() == other.Data()
      ensures graphicsItem == null
    {
      packagePadUuid := other.packagePadUuid;
      position := other.position;
      rotation := other.rotation;
      shape := other.shape;
      width := other.width;
      height := other.height;
      drillWidth := other.drillWidth;
      drillHeight := other.drillHeight;
      boardSide := other.boardSide;
      graphicsItem := null;
    }

    /** The destructor asserts that no graphics item is registered any more. */
    method Destroy()
      requires graphicsItem == null
      ensures unchanged(this)
    {
    }

    method SetPosition(pos: Point)
      modifies this, graphicsItem
      ensures Data() == Apply(old(Data()), EditPosition(pos))
      ensures graphicsItem == old(graphicsItem)
      ensures graphicsItem != null ==> graphicsItem.received == old(graphicsItem.received) + Emitted(old(Data()), EditPosition(pos))
    {
      position := pos;
      if graphicsItem != null {
        graphicsItem.received := graphicsItem.received + [NotifyPosition(position)];
      }
    }

    method SetPackagePadUuid(pad: Uuid)
      modifies this
      ensures Data() == Apply(old(Data()), EditPackagePadUuid(pad))
      ensures graphicsItem == old(graphicsItem)
    {
      packagePadUuid := pad;
    }

    method SetRotation(rot: Angle)
      modifies this, graphicsItem
      ensures Data() == Apply(old(Data()), EditRotation(rot))
      ensures graphicsItem == old(graphicsItem)
      ensures graphicsItem != null ==> graphicsItem.received == old(graphicsItem.received) + Emitted(old(Data()), EditRotation(rot))
    {
      rotation := rot;
      if graphicsItem != null {
        graphicsItem.received := graphicsItem.received + [NotifyRotation(rotation)];
      }
    }

    method SetShape(shape: Shape)
      modifies this, graphicsItem
      ensures Data() == Apply(old(Data()), EditShape(shape))
      ensures graphicsItem == old(graphicsItem)
      ensures graphicsItem != null ==> graphicsItem.received == old(graphicsItem.received) + Emitted(old(Data()), EditShape(shape))
    {
      this.shape := shape;
      if graphicsItem != null {
        graphicsItem.received := graphicsItem.received + [NotifyShape(Data().PainterPathPx(0))];
      }
    }

    method SetWidth(width: PositiveLength)
      modifies this, graphicsItem
      ensures Data() == Apply(old(Data()), EditWidth(width))
      ensures graphicsItem == old(graphicsItem)
      ensures graphicsItem != null ==> graphicsItem.received == old(graphicsItem.received) + Emitted(old(Data()), EditWidth(width))
    {
      this.width := width;
      if graphicsItem != null {
        graphicsItem.received := graphicsItem.received + [NotifyShape(Data().PainterPathPx(0))];
      }
    }

    method SetHeight(height: PositiveLength)
      modifies this, graphicsItem
      ensures Data() == Apply(old(Data()), EditHeight(height))
      ensures graphicsItem == old(graphicsItem)
      ensures graphicsItem != null ==> graphicsItem.received == old(graphicsItem.received) + Emitted(old(Data()), EditHeight(height))
    {
      this.height := height;
      if graphicsItem != null {
        graphicsItem.received := graphicsItem.received + [NotifyShape(Data().PainterPathPx(0))];
      }
    }

    method SetDrillWidth(width: PositiveLength)
      modifies this, graphicsItem
      ensures Data() == Apply(old(Data()), EditDrillWidth(width))
      ensures graphicsItem == old(graphicsItem)
      ensures graphicsItem != null ==> graphicsItem.received == old(graphicsItem.received) + Emitted(old(Data()), EditDrillWidth(width))
    {
      drillWidth := width;
      if graphicsItem != null {
        graphicsItem.received := graphicsItem.received + [NotifyShape(Data().PainterPathPx(0))];
      }
    }

    method SetDrillHeight(height: PositiveLength)
      modifies this, graphicsItem
      ensures Data() == Apply(old(Data()), EditDrillHeight(height))
      ensures graphicsItem == old(graphicsItem)
      ensures graphicsItem != null ==> graphicsItem.received == old(graphicsItem.received) + Emitted(old(Data()), EditDrillHeight(height))
    {
      drillHeight := height;
      if graphicsItem != null {
        graphicsItem.received := graphicsItem.received + [NotifyShape(Data().PainterPathPx(0))];
      }
    }

    method SetBoardSide(side: BoardSide)
      modifies this, graphicsItem
      ensures Data() == Apply(old(Data()), EditBoardSide(side))
      ensures graphicsItem == old(graphicsItem)
      ensures graphicsItem != null ==> graphicsItem.received == old(graphicsItem.received) + Emitted(old(Data()), EditBoardSide(side))
    {
      boardSide := side;
      if graphicsItem != null {
        graphicsItem.received := graphicsItem.received + [NotifyLayerName(Data().LayerName())];
      }
      if graphicsItem != null {
        graphicsItem.received := graphicsItem.received + [NotifyShape(Data().PainterPathPx(0))];
      }
    }

    /** Registration is exclusive: only a pad without a graphics item accepts one. */
    method RegisterGraphicsItem(item: FootprintPadGraphicsItem)
      requires graphicsItem == null
      modifies this
      ensures graphicsItem == item
      ensures Data() == old(Data())
    {
      graphicsItem := item;
    }

    /** Only the registered graphics item can be unregistered; afterwards none is. */
    method UnregisterGraphicsItem(item: FootprintPadGraphicsItem)
      requires graphicsItem == item
      modifies this
      ensures graphicsItem == null
      ensures Data() == old(Data())
    {
      graphicsItem := null;
    }

    /** `operator==`: the nine attributes agree; the graphics item does not take part. */
    function Equals(rhs: FootprintPad): (r: bool)
      reads this, rhs
      ensures r <==> Data() == rhs.Data()
    {
      if packagePadUuid != rhs.packagePadUuid then false
      else if position != rhs.position then false
      else if rotation != rhs.rotation then false
      else if shape != rhs.shape then false
      else if width != rhs.width then false
      else if height != rhs.height then false
      else if drillWidth != rhs.drillWidth then false
      else if drillHeight != rhs.drillHeight then false
      else if boardSide != rhs.boardSide then false
      else true
    }

    /**
     * `operator=`: copies the nine attributes and keeps this pad's own graphics
     * item registration. The registered item is not notified.
     */
    method Assign(rhs: FootprintPad)
      modifies this
      ensures Data() == old(rhs.Data())
      ensures graphicsItem == old(graphicsItem)
    {
      packagePadUuid := rhs.packagePadUuid;
      position := rhs.position;
      rotation := rhs.rotation;
      shape := rhs.shape;
      width := rhs.width;
      height := rhs.height;
      drillWidth := rhs.drillWidth;
      drillHeight := rhs.drillHeight;
      boardSide := rhs.boardSide;
    }
  }

  /** A fresh copy of a pad compares equal to it and has no graphics item. */
  method CopyIsEqual(pad: FootprintPad) returns (copy: FootprintPad)
    ensures fresh(copy)
    ensures copy.Equals(pad) && pad.Equals(copy)
    ensures copy.graphicsItem == null
  {
    copy := new FootprintPad.Copy(pad);
  }
}
