/**
 * The undo command that edits the attributes of one footprint pad. It keeps the
 * pad's attributes as they were when the command was made (the old values) and
 * the values staged by its setters (the new values). Executing, undoing and
 * redoing replay one of the two onto the pad through the pad's own setters.
 */
module PadEditCommand {
  import opened Geometry
  import opened FootprintPads

  /**
   * The nine pad setter calls that `performUndo` and `performRedo` make, in their
   * order, each with the attribute taken from `values`.
   */
  function Replay(values: PadData): seq<Edit> {
    [ EditPackagePadUuid(values.packagePadUuid),
      EditBoardSide(values.boardSide),
      EditShape(values.shape),
      EditWidth(values.width),
      EditHeight(values.height),
      EditPosition(values.position),
      EditRotation(values.rotation),
      EditDrillWidth(values.drillWidth),
      EditDrillHeight(values.drillHeight) ]
  }

  /** Replaying a set of values leaves the pad holding exactly those values, whatever it held before. */
  lemma ReplayRestores(pad: PadData, values: PadData)
    ensures ApplyAll(pad, Replay(values)) == values
  {
    var e := Replay(values);
    var t := ReplayTails(values);
    var a := pad;
    for k := 0 to 9
      invariant ApplyAll(pad, e) == ApplyAll(a, t[k])
      invariant k >= 1 ==> a.packagePadUuid == values.packagePadUuid
      invariant k >= 2 ==> a.boardSide == values.boardSide
      invariant k >= 3 ==> a.shape == values.shape
      invariant k >= 4 ==> a.width == values.width
      invariant k >= 5 ==> a.height == values.height
      invariant k >= 6 ==> a.position == values.position
      invariant k >= 7 ==> a.rotation == values.rotation
      invariant k >= 8 ==> a.drillWidth == values.drillWidth
      invariant k >= 9 ==> a.drillHeight == values.drillHeight
    {
      ApplyAllCons(a, e[k], t[k + 1]);
      a := Apply(a, e[k]);
    }
  }

  /**
   * The suffixes of `Replay(values)`: element `k` holds the setter calls from the
   * `k`-th on, each one the `k`-th call followed by the next suffix.
   */
  lemma ReplayTails(values: PadData) returns (t: seq<seq<Edit>>)
    ensures |t| == 10 && t[0] == Replay(values) && t[9] == []
    ensures forall k :: 0 <= k < 9 ==> t[k] == [Replay(values)[k]] + t[k + 1]
  {
    var e := Replay(values);
    t := [e, e[1..], e[2..], e[3..], e[4..], e[5..], e[6..], e[7..], e[8..], []];
    forall k | 0 <= k < 9
      ensures t[k] == [e[k]] + t[k + 1]
    {
      assert t[k] == e[k..] && t[k + 1] == e[k + 1..];
    }
  }

  /**
   * Replaying a set of values onto a pad whose graphics item showed the pad leaves
   * the item showing those values.
   */
  lemma ReplayShowsValues(pad: PadData, values: PadData)
    ensures ShownAll(ViewOf(pad), EmittedAll(pad, Replay(values))) == ViewOf(values)
  {
    EditsKeepViewInSync(pad, Replay(values));
    ReplayRestores(pad, values);
  }

  /** Replaying the same values twice ends where replaying them once does. */
  lemma ReplayIsIdempotent(pad: PadData, values: PadData)
    ensures ApplyAll(ApplyAll(pad, Replay(values)), Replay(values)) == ApplyAll(pad, Replay(values))
  {
    ReplayRestores(pad, values);
    ReplayRestores(values, values);
  }

  /** The first three calls of a replay: which package pad, which board side, which shape. */
  function IdentityEdits(values: PadData): seq<Edit> {
    [EditPackagePadUuid(values.packagePadUuid), EditBoardSide(values.boardSide), EditShape(values.shape)]
  }

  /** The next two calls: the pad size. */
  function SizeEdits(values: PadData): seq<Edit> {
    [EditWidth(values.width), EditHeight(values.height)]
  }

  /** The next two calls: where the pad sits and how it is turned. */
  function PlacementEdits(values: PadData): seq<Edit> {
    [EditPosition(values.position), EditRotation(values.rotation)]
  }

  /** The last two calls: the drill size. */
  function DrillEdits(values: PadData): seq<Edit> {
    [EditDrillWidth(values.drillWidth), EditDrillHeight(values.drillHeight)]
  }

  lemma ReplayInRuns(values: PadData)
    ensures Replay(values) == IdentityEdits(values) + (SizeEdits(values) + (PlacementEdits(values) + DrillEdits(values)))
  {
  }

  /** Two setter calls in a row, unfolded. */
  lemma ApplyTwo(pad: PadData, first: Edit, second: Edit)
    ensures ApplyAll(pad, [first, second]) == Apply(Apply(pad, first), second)
    ensures EmittedAll(pad, [first, second]) == Emitted(pad, first) + Emitted(Apply(pad, first), second)
  {
    assert [first, second] == [first] + [second];
    ApplyAllCons(pad, first, [second]);
    ApplyAllCons(Apply(pad, first), second, []);
  }

  class CmdFootprintPadEdit {
    /** The edited pad, referenced and not owned. */
    const pad: FootprintPad
    /** The pad's attributes when the command was made. */
    var oldValues: PadData
    /** The attributes staged by the setters. */
    var newValues: PadData
    /** The `wasEverExecuted()` flag of the undo command base. */
    var wasEverExecuted: bool

    /**
     * Between the pre-state and now the pad went through the setter calls `edits`
     * if `applied`, and was left alone otherwise; its graphics item registration is
     * the same and a registered item received exactly the notifications of those calls.
     */
    twostate predicate PadEdited(applied: bool, edits: seq<Edit>)
      reads pad, pad.graphicsItem
    {
      && pad.graphicsItem == old(pad.graphicsItem)
      && pad.Data() == (if applied then ApplyAll(old(pad.Data()), edits) else old(pad.Data()))
      && (pad.graphicsItem != null ==>
            pad.graphicsItem.received == old(pad.graphicsItem.received) + (if applied then EmittedAll(old(pad.Data()), edits) else []))
    }

    /** Both snapshots start as the pad's current attributes. */
    constructor(pad: FootprintPad)
      ensures this.pad == pad
      ensures oldValues == pad.Data() && newValues == pad.Data()
      ensures !wasEverExecuted
    {
      this.pad := pad;
      oldValues := pad.Data();
      newValues := pad.Data();
      wasEverExecuted := false;
    }

    /**
     * The destructor: a command that was never executed undoes itself, restoring all
     * nine old values, whether or not any setter applied its value at once.
     */
    method Destroy()
      modifies pad, pad.graphicsItem
      ensures PadEdited(!wasEverExecuted, Replay(oldValues))
      ensures !wasEverExecuted ==> pad.Data() == oldValues
    {
      if !wasEverExecuted {
        PerformUndo();
      }
    }

    method SetPackagePadUuid(uuid: Uuid, immediate: bool)
      requires !wasEverExecuted
      modifies this, pad, pad.graphicsItem
      ensures newValues == old(newValues).(packagePadUuid := uuid)
      ensures oldValues == old(oldValues) && !wasEverExecuted
      ensures PadEdited(immediate, [EditPackagePadUuid(uuid)])
    {
      newValues := newValues.(packagePadUuid := uuid);
      if immediate {
        pad.SetPackagePadUuid(newValues.packagePadUuid);
      }
    }

    method SetBoardSide(side: BoardSide, immediate: bool)
      requires !wasEverExecuted
      modifies this, pad, pad.graphicsItem
      ensures newValues == old(newValues).(boardSide := side)
      ensures oldValues == old(oldValues) && !wasEverExecuted
      ensures PadEdited(immediate, [EditBoardSide(side)])
    {
      newValues := newValues.(boardSide := side);
      if immediate {
        pad.SetBoardSide(newValues.boardSide);
      }
    }

    method SetShape(shape: Shape, immediate: bool)
      requires !wasEverExecuted
      modifies this, pad, pad.graphicsItem
      ensures newValues == old(newValues).(shape := shape)
      ensures oldValues == old(oldValues) && !wasEverExecuted
      ensures PadEdited(immediate, [EditShape(shape)])
    {
      newValues := newValues.(shape := shape);
      if immediate {
        pad.SetShape(newValues.shape);
      }
    }

    method SetWidth(width: PositiveLength, immediate: bool)
      requires !wasEverExecuted
      modifies this, pad, pad.graphicsItem
      ensures newValues == old(newValues).(width := width)
      ensures oldValues == old(oldValues) && !wasEverExecuted
      ensures PadEdited(immediate, [EditWidth(width)])
    {
      newValues := newValues.(width := width);
      if immediate {
        pad.SetWidth(newValues.width);
      }
    }

    method SetHeight(height: PositiveLength, immediate: bool)
      requires !wasEverExecuted
      modifies this, pad, pad.graphicsItem
      ensures newValues == old(newValues).(height := height)
      ensures oldValues == old(oldValues) && !wasEverExecuted
      ensures PadEdited(immediate, [EditHeight(height)])
    {
      newValues := newValues.(height := height);
      if immediate {
        pad.SetHeight(newValues.height);
      }
    }

    method SetDrillWidth(width: PositiveLength, immediate: bool)
      requires !wasEverExecuted
      modifies this, pad, pad.graphicsItem
      ensures newValues == old(newValues).(drillWidth := width)
      ensures oldValues == old(oldValues) && !wasEverExecuted
      ensures PadEdited(immediate, [EditDrillWidth(width)])
    {
      newValues := newValues.(drillWidth := width);
      if immediate {
        pad.SetDrillWidth(newValues.drillWidth);
      }
    }

    method SetDrillHeight(height: PositiveLength, immediate: bool)
      requires !wasEverExecuted
      modifies this, pad, pad.graphicsItem
      ensures newValues == old(newValues).(drillHeight := height)
      ensures oldValues == old(oldValues) && !wasEverExecuted
      ensures PadEdited(immediate, [EditDrillHeight(height)])
    {
      newValues := newValues.(drillHeight := height);
      if immediate {
        pad.SetDrillHeight(newValues.drillHeight);
      }
    }

    method SetPosition(pos: Point, immediate: bool)
      requires !wasEverExecuted
      modifies this, pad, pad.graphicsItem
      ensures newValues == old(newValues).(position := pos)
      ensures oldValues == old(oldValues) && !wasEverExecuted
      ensures PadEdited(immediate, [EditPosition(pos)])
    {
      newValues := newValues.(position := pos);
      if immediate {
        pad.SetPosition(newValues.position);
      }
    }

    /**
     * Stages the old position moved by `deltaPos`; whatever position was staged
     * before, by `SetPosition` or `Rotate`, is discarded.
     */
    method SetDeltaToStartPos(deltaPos: Point, immediate: bool)
      requires !wasEverExecuted
      modifies this, pad, pad.graphicsItem
      ensures newValues == old(newValues).(position := oldValues.position.Plus(deltaPos))
      ensures oldValues == old(oldValues) && !wasEverExecuted
      ensures PadEdited(immediate, [EditPosition(oldValues.position.Plus(deltaPos))])
    {
      newValues := newValues.(position := oldValues.position.Plus(deltaPos));
      if immediate {
        pad.SetPosition(newValues.position);
      }
    }

    method SetRotation(angle: Angle, immediate: bool)
      requires !wasEverExecuted
      modifies this, pad, pad.graphicsItem
      ensures newValues == old(newValues).(rotation := angle)
      ensures oldValues == old(oldValues) && !wasEverExecuted
      ensures PadEdited(immediate, [EditRotation(angle)])
    {
      newValues := newValues.(rotation := angle);
      if immediate {
        pad.SetRotation(newValues.rotation);
      }
    }

    /**
     * Rotates the staged position by `angle` about `center` and adds `angle` to the
     * staged rotation. `Point::rotate` and the addition of angles are not part of
     * this model; they are passed in as `rotatePoint` and `addAngles`.
     */
    method Rotate(angle: Angle, center: Point, immediate: bool,
                  rotatePoint: (Point, Angle, Point) -> Point, addAngles: (Angle, Angle) -> Angle)
      requires !wasEverExecuted
      modifies this, pad, pad.graphicsItem
      ensures newValues == old(newValues).(position := rotatePoint(old(newValues.position), angle, center),
                                           rotation := addAngles(old(newValues.rotation), angle))
      ensures oldValues == old(oldValues) && !wasEverExecuted
      ensures PadEdited(immediate, [EditPosition(newValues.position), EditRotation(newValues.rotation)])
    {
      newValues := newValues.(position := rotatePoint(newValues.position, angle, center));
      newValues := newValues.(rotation := addAngles(newValues.rotation, angle));
      if immediate {
        ApplyTwo(pad.Data(), EditPosition(newValues.position), EditRotation(newValues.rotation));
        pad.SetPosition(newValues.position);
        pad.SetRotation(newValues.rotation);
      }
    }

    /**
     * `performExecute`: applies every new value, and reports whether any of them
     * differs from its old value.
     */
    method PerformExecute() returns (changed: bool)
      modifies pad, pad.graphicsItem
      ensures unchanged(this)
      ensures pad.Data() == newValues
      ensures PadEdited(true, Replay(newValues))
      ensures changed <==> newValues != oldValues
    {
      PerformRedo();
      if newValues.packagePadUuid != oldValues.packagePadUuid { return true; }
      if newValues.boardSide != oldValues.boardSide { return true; }
      if newValues.shape != oldValues.shape { return true; }
      if newValues.width != oldValues.width { return true; }
      if newValues.height != oldValues.height { return true; }
      if newValues.position != oldValues.position { return true; }
      if newValues.rotation != oldValues.rotation { return true; }
      if newValues.drillWidth != oldValues.drillWidth { return true; }
      if newValues.drillHeight != oldValues.drillHeight { return true; }
      return false;
    }

    /** `performUndo`: the pad gets all nine old values back. */
    method PerformUndo()
      modifies pad, pad.graphicsItem
      ensures unchanged(this)
      ensures pad.Data() == oldValues
      ensures PadEdited(true, Replay(oldValues))
    {
      ReplayOnPad(oldValues);
    }

    /** `performRedo`: the pad gets all nine new values. */
    method PerformRedo()
      modifies pad, pad.graphicsItem
      ensures unchanged(this)
      ensures pad.Data() == newValues
      ensures PadEdited(true, Replay(newValues))
    {
      ReplayOnPad(newValues);
    }

    /**
     * The nine setter calls that `performUndo` and `performRedo` both make, in the
     * same order, here applying `values`. They are grouped in four runs below so
     * that each proof stays small; the order of the calls is the source's.
     */
    method ReplayOnPad(values: PadData)
      modifies pad, pad.graphicsItem
      ensures pad.Data() == values
      ensures PadEdited(true, Replay(values))
    {
      ghost var item := pad.graphicsItem;
      ghost var start := if item != null then item.received else [];
      ghost var d0 := pad.Data();
      ReplayIdentity(values);
      ghost var d1 := pad.Data();
      ReplaySize(values);
      ghost var d2 := pad.Data();
      ReplayPlacement(values);
      ghost var d3 := pad.Data();
      ReplayDrill(values);
      ReplayInRuns(values);
      ApplyFourRuns(d0, IdentityEdits(values), SizeEdits(values), PlacementEdits(values), DrillEdits(values));
      AppendedInFourRuns(start, EmittedAll(d0, IdentityEdits(values)), EmittedAll(d1, SizeEdits(values)),
        EmittedAll(d2, PlacementEdits(values)), EmittedAll(d3, DrillEdits(values)));
      ReplayRestores(d0, values);
    }

    method ReplayIdentity(values: PadData)
      modifies pad, pad.graphicsItem
      ensures PadEdited(true, IdentityEdits(values))
    {
      ghost var d0 := pad.Data();
      pad.SetPackagePadUuid(values.packagePadUuid);
      ghost var d1 := pad.Data();
      pad.SetBoardSide(values.boardSide);
      pad.SetShape(values.shape);
      ApplyAllCons(d0, EditPackagePadUuid(values.packagePadUuid), [EditBoardSide(values.boardSide), EditShape(values.shape)]);
      ApplyTwo(d1, EditBoardSide(values.boardSide), EditShape(values.shape));
    }

    method ReplaySize(values: PadData)
      modifies pad, pad.graphicsItem
      ensures PadEdited(true, SizeEdits(values))
    {
      ApplyTwo(pad.Data(), EditWidth(values.width), EditHeight(values.height));
      pad.SetWidth(values.width);
      pad.SetHeight(values.height);
    }

    method ReplayPlacement(values: PadData)
      modifies pad, pad.graphicsItem
      ensures PadEdited(true, PlacementEdits(values))
    {
      ApplyTwo(pad.Data(), EditPosition(values.position), EditRotation(values.rotation));
      pad.SetPosition(values.position);
      pad.SetRotation(values.rotation);
    }

    method ReplayDrill(values: PadData)
      modifies pad, pad.graphicsItem
      ensures PadEdited(true, DrillEdits(values))
    {
      ApplyTwo(pad.Data(), EditDrillWidth(values.drillWidth), EditDrillHeight(values.drillHeight));
      pad.SetDrillWidth(values.drillWidth);
      pad.SetDrillHeight(values.drillHeight);
    }

    /**
     * `UndoCommand::execute`, reduced to what this command needs: it may run only
     * once, marks the command as executed and runs `performExecute`.
     */
    method Execute() returns (changed: bool)
      requires !wasEverExecuted
      modifies this, pad, pad.graphicsItem
      ensures wasEverExecuted
      ensures oldValues == old(oldValues) && newValues == old(newValues)
      ensures pad.Data() == newValues
      ensures PadEdited(true, Replay(newValues))
      ensures changed <==> newValues != oldValues
    {
      wasEverExecuted := true;
      changed := PerformExecute();
    }
  }

  /**
   * An edit applied at once for live feedback and then abandoned: destroying the
   * command returns the pad to its attributes before the edit.
   */
  method AbandonedEditIsRolledBack(pad: FootprintPad, width: PositiveLength, pos: Point)
    modifies pad, pad.graphicsItem
    ensures pad.Data() == old(pad.Data())
    ensures pad.graphicsItem == old(pad.graphicsItem)
  {
    var cmd := new CmdFootprintPadEdit(pad);
    cmd.SetWidth(width, true);
    cmd.SetDeltaToStartPos(pos, true);
    cmd.Destroy();
  }

  /**
   * The width staged unchanged and the height staged from 1.0 mm to 1.2 mm:
   * executing reports a change, undoing gives the pad its old height back, and
   * redoing then undoing again ends on the old attributes too.
   */
  method HeightEditRoundTrip(pad: FootprintPad) returns (changed: bool)
    requires pad.width == 1_000_000 && pad.height == 1_000_000
    modifies pad, pad.graphicsItem
    ensures changed
    ensures pad.Data() == old(pad.Data())
  {
    var cmd := new CmdFootprintPadEdit(pad);
    cmd.SetWidth(1_000_000, false);
    cmd.SetHeight(1_200_000, false);
    changed := cmd.Execute();
    assert pad.height == 1_200_000;
    cmd.PerformUndo();
    assert pad.height == 1_000_000;
    cmd.PerformRedo();
    cmd.PerformUndo();
    cmd.PerformUndo();
  }
}
