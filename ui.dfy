/**
 * The interaction of the main window. The transformer GUI drives a builder
 * from the first corner the user drags to the transformed polygon. The
 * rectangle creator GUI is switched on and off by the shift key. The view
 * routes mouse and key events between the two. The window picks the
 * builder kind from its form.
 *
 * The scene is not modelled. A mouse event carries the point item under the
 * cursor (`null` when there is none) and the position of the cursor in
 * scene coordinates. The form is a `Selection` of the boxes it has checked.
 */
module Gui {
  import opened Outcomes
  import opened Geometry
  import opened Transformations
  import opened LinearTransformations
  import opened Areas
  import opened Builders
  import opened Fits
  import opened Shapes

  /** The `_mode` strings of the two GUIs: 'DISABLED', 'DRAG', 'WAIT' and 'DRAWING'. */
  datatype Mode = Disabled | Drag | Wait | Drawing

  /** The boxes of the transformation form, which the window consults in this order. */
  datatype Selection = Selection(similarity: bool, bilinear: bool, affine: bool, projective: bool,
                                 rigid: bool, rotation: bool, translation: bool)

  /**
   * `MainWin.transformation_builder`: a fresh builder of the first checked
   * kind. The bilinear, projective and rotation boxes and an empty form all
   * fall back to a translation builder.
   */
  function TransformationBuilder(s: Selection): (b: Builder)
    ensures b.pairs == [] && Builders.Valid(b) && !IsDone(b)
    ensures b.kind == SimilarityKind <==> s.similarity
    ensures b.kind == AffineKind <==> !s.similarity && !s.bilinear && s.affine
    ensures b.kind == RigidKind <==> !s.similarity && !s.bilinear && !s.affine && !s.projective && s.rigid
    ensures b.kind == TranslationKind <==>
              !s.similarity && (s.bilinear || (!s.affine && (s.projective || !s.rigid)))
  {
    if s.similarity then NewBuilder(SimilarityKind)
    else if s.bilinear then NewBuilder(TranslationKind)
    else if s.affine then NewBuilder(AffineKind)
    else if s.projective then NewBuilder(TranslationKind)
    else if s.rigid then NewBuilder(RigidKind)
    else if s.rotation then NewBuilder(TranslationKind)
    else if s.translation then NewBuilder(TranslationKind)
    else NewBuilder(TranslationKind)
  }

  /** Every transformation the builders produce has an image for every point. */
  lemma AffineDefinedOn(t: Transformation, ps: seq<Point>)
    requires IsAffine(t)
    ensures DefinedOn(t, ps)
  {
    forall i | 0 <= i < |ps| ensures Apply(t, ps[i]).Some? {
      AffineApply(t, ps[i]);
    }
  }

  /**
   * `TransformerGUI`. Pressing on a polygon corner starts a drag. A red
   * marker then follows the cursor along the legal path of the corner.
   * Releasing commits the pair. When the builder is done, the polygon is
   * moved by the fitted transformation.
   */
  class TransformerGui {
    var mode: Mode
    var builder: Option<Builder>     // `_current_transformation_builder`
    var srcPoint: PointItem?         // `_current_src_point`
    var draggedItem: PointItem?      // `_current_dragged_item`
    var polygon: PolygonItem?        // `_current_transformed_polygon`
    var tempItems: set<PointItem>    // the items the temporary drawer shows

    /**
     * The states the GUI moves through. While dragging or waiting it holds
     * the polygon being transformed and a builder that is not done. That
     * builder's pairs are consistent. While dragging it also holds two
     * things. The first is the corner being dragged, which belongs to that
     * polygon and is not yet a source of the builder. The second is the
     * marker that follows the cursor, which is a temporary item.
     */
    ghost predicate Valid()
      reads this, srcPoint, polygon
    {
      (mode == Disabled || mode == Drag || mode == Wait) &&
      (mode != Disabled ==>
         builder.Some? && Builders.Valid(builder.value) && !IsDone(builder.value) &&
         RigidConsistent(builder.value) && polygon != null && polygon.Valid()) &&
      (mode == Drag ==>
         srcPoint != null && draggedItem != null && draggedItem != srcPoint &&
         srcPoint.owner == polygon && srcPoint.point !in Sources(builder.value) &&
         draggedItem in tempItems) &&
      (mode == Wait ==> srcPoint == null && draggedItem == null)
    }

    /** `enabled`. */
    function Enabled(): bool
      reads this
    {
      mode != Disabled
    }

    /** The objects a release may change: the transformed polygon and its corners. */
    ghost function PolygonFrame(): set<object>
      reads this, polygon
    {
      if polygon == null then {} else {polygon as object} + set i: PointItem | i in polygon.items :: i as object
    }

    constructor()
      ensures Valid() && mode == Disabled
      ensures builder == None && srcPoint == null && draggedItem == null && polygon == null
      ensures tempItems == {}
    {
      mode := Disabled;
      builder := None;
      srcPoint := null;
      draggedItem := null;
      polygon := null;
      tempItems := {};
    }

    /**
     * Where the marker goes for a cursor at `p`: `p` projected onto the
     * legal path of the dragged corner. That path exists because the corner
     * is not yet a source. The marker stays where it is when projected
     * again. For the second pair of a rigid builder, its distance from the
     * first destination is the distance between the two sources.
     */
    function Target(sqrt: real -> real, p: Point): (r: Point)
      requires ExactSqrt(sqrt) && Valid() && mode == Drag
      reads this, srcPoint, polygon
      ensures LegalPathFor(sqrt, builder.value, srcPoint.point).Ok?
      ensures Project(sqrt, LegalPathFor(sqrt, builder.value, srcPoint.point).value, r) == r
      ensures builder.value.kind == RigidKind && |builder.value.pairs| == 1 ==>
                SqDist(builder.value.pairs[0].dst, r) == SqDist(builder.value.pairs[0].src, srcPoint.point)
    {
      var b := builder.value;
      LegalPathRefused(sqrt, b, srcPoint.point);
      var path := LegalPathFor(sqrt, b, srcPoint.point).value;
      ProjectTwice(sqrt, path, p);
      var r := Project(sqrt, path, p);
      assert b.kind == RigidKind && |b.pairs| == 1 ==> SqDist(b.pairs[0].dst, r) == SqDist(b.pairs[0].src, srcPoint.point) by {
        if b.kind == RigidKind && |b.pairs| == 1 {
          RigidSecondMove(sqrt, b, srcPoint.point, p);
        }
      }
      r
    }

    /**
     * The builder a release at `p` commits. The cursor is projected onto the
     * corner's legal path and `move_point` appends the pair from the dragged
     * corner to that place (projecting it again leaves it where it is). The
     * builder stays consistent.
     */
    function Committed(sqrt: real -> real, p: Point): (r: Builder)
      requires ExactSqrt(sqrt) && Valid() && mode == Drag
      reads this, srcPoint, polygon
      ensures Builders.Valid(r) && r.kind == builder.value.kind && RigidConsistent(r)
      ensures r.pairs == builder.value.pairs + [SrcDst(srcPoint.point, Target(sqrt, p))]
      ensures Sources(r) == Sources(builder.value) + [srcPoint.point]
    {
      var b := builder.value;
      LegalPathRefused(sqrt, b, srcPoint.point);
      var legal := LegalPathFor(sqrt, b, srcPoint.point).value;
      var projected := Project(sqrt, legal, p);
      ProjectTwice(sqrt, legal, p);
      MovePointCounts(sqrt, b, srcPoint.point, projected);
      MovePointConsistent(sqrt, b, srcPoint.point, projected);
      SourcesAfterMove(sqrt, b, srcPoint.point, projected);
      MovePoint(sqrt, b, srcPoint.point, projected).value
    }

    /** `_init_drag`: no builder, corner, marker or polygon, and no temporary item. */
    method InitDrag()
      modifies this
      ensures mode == old(mode)
      ensures builder == None && srcPoint == null && draggedItem == null && polygon == null
      ensures tempItems == {}
    {
      builder := None;
      srcPoint := null;
      draggedItem := null;
      polygon := null;
      tempItems := {};
    }

    /** `_update_dragging`: the marker moves to the projection of the cursor. */
    method UpdateDragging(p: Point, sqrt: real -> real)
      requires ExactSqrt(sqrt) && Valid() && mode == Drag
      modifies draggedItem
      ensures Valid()
      ensures draggedItem.point == Target(sqrt, p)
    {
      var b := builder.value;
      LegalPathRefused(sqrt, b, srcPoint.point);
      var legal := LegalPathFor(sqrt, b, srcPoint.point).value;
      var projected := Project(sqrt, legal, p);
      draggedItem.MoveTo(projected);
    }

    /**
     * `_start_dragging`: drag `hit`. A fresh marker carrying the corner's
     * letter and no owner is drawn as a temporary item at the cursor's
     * projection.
     */
    method StartDragging(hit: PointItem, p: Point, sqrt: real -> real)
      requires ExactSqrt(sqrt) && builder.Some?
      requires Builders.Valid(builder.value) && !IsDone(builder.value) && RigidConsistent(builder.value)
      requires polygon != null && polygon.Valid() && hit.owner == polygon
      requires hit.point !in Sources(builder.value)
      modifies this
      ensures Valid() && mode == Drag
      ensures srcPoint == hit && builder == old(builder) && polygon == old(polygon)
      ensures fresh(draggedItem) && draggedItem.owner == null && draggedItem.text == hit.text
      ensures tempItems == old(tempItems) + {draggedItem}
      ensures draggedItem.point == Target(sqrt, p)
    {
      srcPoint := hit;
      draggedItem := new PointItem(p, null, hit.text);
      tempItems := tempItems + {draggedItem};
      mode := Drag;
      UpdateDragging(p, sqrt);
    }

    /**
     * Whether a press on `hit` starts a drag. It does when `hit` is a corner
     * of a polygon and the GUI is either disabled, or waiting with `hit` a
     * corner of the same polygon that is not yet a source.
     */
    predicate Grabs(hit: PointItem?)
      reads this, hit
    {
      hit != null && hit.owner != null &&
      (mode == Disabled ||
       (mode == Wait && hit.owner == polygon && builder.Some? && hit.point !in Sources(builder.value)))
    }

    /**
     * `mousePressed`. When disabled, a press on a corner takes a fresh
     * builder from the form and the corner's polygon. When waiting, it keeps
     * both. Either way it starts dragging that corner. Any other press
     * changes nothing.
     */
    method Press(hit: PointItem?, scenePos: Point, selection: Selection, sqrt: real -> real)
      requires ExactSqrt(sqrt) && Valid()
      requires hit != null && hit.owner != null ==> hit.owner.Valid()
      modifies this
      ensures Valid()
      ensures old(Grabs(hit)) ==>
                mode == Drag && srcPoint == hit && polygon == hit.owner &&
                fresh(draggedItem) && draggedItem.owner == null && draggedItem.text == hit.text &&
                tempItems == old(tempItems) + {draggedItem} &&
                draggedItem.point == Target(sqrt, scenePos)
      ensures old(Grabs(hit)) && old(mode) == Disabled ==> builder == Some(TransformationBuilder(selection))
      ensures old(Grabs(hit)) && old(mode) == Wait ==> builder == old(builder)
      ensures !old(Grabs(hit)) ==> unchanged(this)
    {
      if hit != null && hit.owner != null {
        var owner := hit.owner;
        if mode == Disabled {
          builder := Some(TransformationBuilder(selection));
          polygon := owner;
          StartDragging(hit, scenePos, sqrt);
        } else if mode == Wait && owner == polygon && hit.point !in Sources(builder.value) {
          StartDragging(hit, scenePos, sqrt);
        }
      }
    }

    /** `mouseMoved`: while dragging, the marker follows the cursor. */
    method Move(scenePos: Point, sqrt: real -> real)
      requires ExactSqrt(sqrt) && Valid()
      modifies draggedItem
      ensures Valid()
      ensures mode == Drag ==> draggedItem.point == Target(sqrt, scenePos)
      ensures mode != Drag && draggedItem != null ==> unchanged(draggedItem)
    {
      if mode == Drag {
        UpdateDragging(scenePos, sqrt);
      }
    }

    /**
     * `mouseReleased`. While dragging, the release commits the pair from the
     * dragged corner to the projected cursor; `committed` is the builder with
     * that pair. If the builder still needs pairs, the GUI waits for the next
     * corner. Otherwise it is disabled and the builder fits its
     * transformation. On success the polygon's corners move to their images
     * and the GUI is cleared. The fit can find the system singular. Then the
     * error is returned and the builder, polygon and items are left as they
     * were, as when `get_transformation` raises. `fitted` is the
     * transformation applied.
     */
    method Release(scenePos: Point, sqrt: real -> real, solve: (seq<seq<real>>, seq<real>) -> seq<real>)
      returns (failure: Option<Error>, ghost fitted: Option<Transformation>, ghost committed: Option<Builder>)
      requires ExactSqrt(sqrt) && Valid()
      modifies this, PolygonFrame()
      ensures Valid()
      ensures old(mode) != Drag ==>
                unchanged(this) && unchanged(old(PolygonFrame())) && failure == None && committed == None
      ensures old(mode) == Drag ==> committed == Some(old(Committed(sqrt, scenePos)))
      ensures committed.Some? && !IsDone(committed.value) ==>
                mode == Wait && builder == committed &&
                polygon == old(polygon) && unchanged(old(PolygonFrame())) &&
                tempItems == old(tempItems) && failure == None
      ensures committed.Some? && IsDone(committed.value) ==>
                mode == Disabled &&
                (failure.None? <==> Fit(sqrt, solve, committed.value).Ok?) &&
                (failure.None? ==> fitted == Some(Fit(sqrt, solve, committed.value).value))
      ensures failure.Some? ==>
                old(mode) == Drag && failure.value == SingularSystem &&
                builder == old(builder) && polygon == old(polygon) && srcPoint == old(srcPoint) &&
                draggedItem == old(draggedItem) && tempItems == old(tempItems) &&
                unchanged(old(PolygonFrame()))
      ensures committed.Some? && IsDone(committed.value) && failure.None? ==>
                fitted.Some? && IsAffine(fitted.value) && MapsPairs(fitted.value, committed.value.pairs) &&
                old(polygon).Valid() && DefinedOn(fitted.value, old(polygon.Corners())) &&
                old(polygon).Corners() == TransformAll(fitted.value, old(polygon.Corners())) &&
                old(polygon).polygon == Ring(old(polygon).Corners()) && old(polygon).items == old(polygon.items) &&
                builder == None && polygon == null && srcPoint == null && draggedItem == null &&
                tempItems == {}
    {
      failure, fitted, committed := None, None, None;
      if mode == Drag {
        var next := Committed(sqrt, scenePos);
        committed := Some(next);
        if IsDone(next) {
          assert polygon in old(PolygonFrame()) && forall i :: i in polygon.items ==> i in old(PolygonFrame());
          failure, fitted := Finish(next, sqrt, solve);
        } else {
          AwaitNextPair(next);
        }
      }
    }

    /** A release that leaves the builder `next` needing pairs: the GUI waits for the next corner. */
    method AwaitNextPair(next: Builder)
      requires Valid() && mode == Drag
      requires Builders.Valid(next) && !IsDone(next) && RigidConsistent(next)
      modifies this
      ensures Valid()
      ensures mode == Wait && builder == Some(next) && polygon == old(polygon) && tempItems == old(tempItems)
    {
      mode := Wait;
      builder := Some(next);
      draggedItem := null;
      srcPoint := null;
    }

    /**
     * The end of a release that completes the builder `next`: the GUI is
     * disabled and `next` fits its transformation. On success the polygon's
     * corners move to their images and the drag is cleared. On failure the
     * error is returned and nothing else changes.
     */
    method Finish(next: Builder, sqrt: real -> real, solve: (seq<seq<real>>, seq<real>) -> seq<real>)
      returns (failure: Option<Error>, ghost fitted: Option<Transformation>)
      requires ExactSqrt(sqrt) && IsDone(next) && RigidConsistent(next)
      requires polygon != null && polygon.Valid()
      modifies this, polygon, polygon.items
      ensures mode == Disabled
      ensures failure.None? <==> Fit(sqrt, solve, next).Ok?
      ensures failure.None? ==> fitted == Some(Fit(sqrt, solve, next).value)
      ensures failure.Some? ==>
                failure.value == SingularSystem && builder == old(builder) && polygon == old(polygon) &&
                srcPoint == old(srcPoint) && draggedItem == old(draggedItem) && tempItems == old(tempItems) &&
                unchanged(polygon) && unchanged(old(polygon.items))
      ensures failure.None? ==>
                fitted.Some? && IsAffine(fitted.value) && MapsPairs(fitted.value, next.pairs) &&
                old(polygon).Valid() && DefinedOn(fitted.value, old(polygon.Corners())) &&
                old(polygon).Corners() == TransformAll(fitted.value, old(polygon.Corners())) &&
                old(polygon).polygon == Ring(old(polygon).Corners()) && old(polygon).items == old(polygon.items) &&
                builder == None && polygon == null && srcPoint == null && draggedItem == null &&
                tempItems == {}
    {
      failure, fitted := None, None;
      mode := Disabled;
      var t := GetTransformation(next, sqrt, solve);
      if t.Err? {
        failure := Some(t.error);
        return;
      }
      fitted := Some(t.value);
      MovePolygon(t.value);
    }

    /** A successful fit: the polygon's corners move to their images under `t` and the drag is cleared. */
    method MovePolygon(t: Transformation)
      requires IsAffine(t) && polygon != null && polygon.Valid()
      modifies this, polygon, polygon.items
      ensures mode == old(mode)
      ensures old(polygon).Valid() && DefinedOn(t, old(polygon.Corners())) &&
              old(polygon).Corners() == TransformAll(t, old(polygon.Corners())) &&
              old(polygon).polygon == Ring(old(polygon).Corners()) && old(polygon).items == old(polygon.items)
      ensures builder == None && polygon == null && srcPoint == null && draggedItem == null && tempItems == {}
    {
      AffineDefinedOn(t, polygon.Corners());
      polygon.MyTransform(t);
      InitDrag();
    }

    /** The transformer's share of `_handle_mouse_event`: the event goes to its handler. */
    method Dispatch(event: MouseEvent, hit: PointItem?, scenePos: Point, selection: Selection,
                    sqrt: real -> real, solve: (seq<seq<real>>, seq<real>) -> seq<real>)
      returns (failure: Option<Error>, ghost fitted: Option<Transformation>, ghost committed: Option<Builder>)
      requires ExactSqrt(sqrt) && Valid()
      requires hit != null && hit.owner != null ==> hit.owner.Valid()
      modifies this, PolygonFrame(), draggedItem
      ensures Valid()
      ensures event != ReleaseEvent ==> failure == None
      ensures event == PressEvent ==>
                (old(Grabs(hit)) ==> mode == Drag && srcPoint == hit && draggedItem.point == Target(sqrt, scenePos)) &&
                (!old(Grabs(hit)) ==> unchanged(this))
      ensures event == MoveEvent ==> unchanged(this) && (mode == Drag ==> draggedItem.point == Target(sqrt, scenePos))
      ensures event == ReleaseEvent ==> mode != Drag
      ensures event == ReleaseEvent && old(mode) != Drag ==> unchanged(this) && failure == None
      ensures event != ReleaseEvent || old(mode) != Drag ==> committed == None
      ensures event == ReleaseEvent && old(mode) == Drag ==> committed == Some(old(Committed(sqrt, scenePos)))
      ensures committed.Some? ==> mode == (if IsDone(committed.value) then Disabled else Wait)
      ensures committed.Some? && IsDone(committed.value) ==>
                (failure.None? <==> Fit(sqrt, solve, committed.value).Ok?) &&
                (failure.None? ==> fitted == Some(Fit(sqrt, solve, committed.value).value))
    {
      failure, fitted, committed := None, None, None;
      match event
      case PressEvent => Press(hit, scenePos, selection, sqrt);
      case MoveEvent => Move(scenePos, sqrt);
      case ReleaseEvent =>
        failure, fitted, committed := Release(scenePos, sqrt, solve);
    }

    /**
     * `reset` as written: it only clears the drag (`_init_drag`) and keeps
     * the mode. Reset while dragging or waiting, the GUI is left enabled
     * with no builder and no polygon.
     */
    method ResetAsWritten()
      requires Valid()
      modifies this
      ensures mode == old(mode) && builder == None && polygon == null
      ensures old(mode) != Disabled ==> !Valid()
    {
      InitDrag();
    }

    /** `reset` as intended: back to the state the constructor leaves. */
    method Reset()
      modifies this
      ensures Valid() && mode == Disabled
      ensures builder == None && srcPoint == null && draggedItem == null && polygon == null
      ensures tempItems == {}
    {
      mode := Disabled;
      InitDrag();
    }
  }

  /**
   * The creator's mode after a change of the keyboard modifiers
   * (`update_modifiers`). From a creator mode, the creator ends enabled
   * exactly when shift is held. Holding shift never interrupts a drawing or
   * a wait.
   */
  function ModeAfterModifiers(m: Mode, shift: bool): (r: Mode)
    ensures m != Drag ==> r != Drag && (r != Disabled <==> shift)
    ensures shift && m != Disabled ==> r == m
    ensures shift && m == Disabled ==> r == Wait
  {
    match m
    case Disabled => if shift then Wait else m
    case Drawing => if shift then m else Disabled
    case Wait => if shift then m else Disabled
    case Drag => m
  }

  /**
   * `RectanglesCreatorGUI`. While shift is held, a press starts a rectangle
   * and a release, or letting go of shift, hands it to the creator. The
   * rectangles handed over so far are `rectangles`, oldest first.
   */
  class RectanglesCreatorGui {
    var mode: Mode
    var origin: Point          // `_origin`, in view coordinates
    var originScene: Point     // `_origin_scene`
    var targetScene: Point     // `_target_scene`
    var rectangles: seq<Rect>

    ghost predicate Valid()
      reads this
    {
      mode == Disabled || mode == Wait || mode == Drawing
    }

    function Enabled(): bool
      reads this
    {
      mode != Disabled
    }

    constructor()
      ensures Valid() && mode == Disabled && rectangles == []
      ensures origin == Origin && originScene == Origin && targetScene == Origin
    {
      mode := Disabled;
      origin := Origin;
      originScene := Origin;
      targetScene := Origin;
      rectangles := [];
    }

    /** `_add_current_rectangle`: the rectangle from the press to the last move is handed over. */
    method AddCurrentRectangle()
      requires mode == Drawing
      modifies this
      ensures rectangles == old(rectangles) + [Rect(originScene, targetScene)]
      ensures mode == old(mode) && origin == old(origin)
      ensures originScene == old(originScene) && targetScene == old(targetScene)
    {
      rectangles := rectangles + [Rect(originScene, targetScene)];
    }

    /** `mouseReleased`: a drawing ends with its rectangle handed over. */
    method Release(pos: Point, scenePos: Point)
      requires Valid()
      modifies this
      ensures Valid()
      ensures old(mode) == Drawing ==>
                mode == Wait && rectangles == old(rectangles) + [Rect(originScene, targetScene)] &&
                origin == old(origin) && originScene == old(originScene) && targetScene == old(targetScene)
      ensures old(mode) != Drawing ==> unchanged(this)
    {
      if mode == Drawing {
        AddCurrentRectangle();
        mode := Wait;
      }
    }

    /** `mousePressed`: while waiting, a press starts a rectangle at the cursor. */
    method Press(pos: Point, scenePos: Point)
      requires Valid()
      modifies this
      ensures Valid()
      ensures old(mode) == Wait ==>
                mode == Drawing && origin == pos && originScene == scenePos &&
                targetScene == old(targetScene) && rectangles == old(rectangles)
      ensures old(mode) != Wait ==> unchanged(this)
    {
      if mode == Wait {
        mode := Drawing;
        origin := pos;
        originScene := scenePos;
      }
    }

    /** `mouseMoved`: while drawing, the far corner follows the cursor. */
    method Move(pos: Point, scenePos: Point)
      requires Valid()
      modifies this
      ensures Valid()
      ensures old(mode) == Drawing ==>
                targetScene == scenePos && mode == old(mode) && origin == old(origin) &&
                originScene == old(originScene) && rectangles == old(rectangles)
      ensures old(mode) != Drawing ==> unchanged(this)
    {
      if mode == Drawing {
        targetScene := scenePos;
      }
    }

    /**
     * `update_modifiers`. Letting go of shift during a drawing hands its
     * rectangle over.
     */
    method UpdateModifiers(shift: bool)
      requires Valid()
      modifies this
      ensures Valid()
      ensures mode == ModeAfterModifiers(old(mode), shift)
      ensures rectangles == if old(mode) == Drawing && !shift
                            then old(rectangles) + [Rect(originScene, targetScene)]
                            else old(rectangles)
      ensures origin == old(origin) && originScene == old(originScene) && targetScene == old(targetScene)
    {
      if mode == Disabled && shift {
        mode := Wait;
      } else if mode == Drawing && !shift {
        AddCurrentRectangle();
        mode := Disabled;
      } else if mode == Wait && !shift {
        mode := Disabled;
      }
    }
  }

  /** The three mouse events the view forwards: 'press', 'move' and 'release'. */
  datatype MouseEvent = PressEvent | MoveEvent | ReleaseEvent

  /**
   * The creator's mode once the modifiers of an event are taken into account:
   * unchanged while the transformer is enabled.
   */
  function RoutedCreatorMode(transformerEnabled: bool, creatorMode: Mode, shift: bool): (r: Mode)
    ensures transformerEnabled ==> r == creatorMode
    ensures !transformerEnabled && creatorMode != Drag ==> (r != Disabled <==> shift)
  {
    if transformerEnabled then creatorMode else ModeAfterModifiers(creatorMode, shift)
  }

  /**
   * `MyGraphicsView`: the two GUIs and the routing of events between them.
   * At most one of them is ever enabled.
   */
  class View {
    const transformer: TransformerGui
    const creator: RectanglesCreatorGui

    ghost predicate Valid()
      reads this, transformer, transformer.srcPoint, transformer.polygon, creator
    {
      transformer.Valid() && creator.Valid() && !(transformer.Enabled() && creator.Enabled())
    }

    constructor()
      ensures Valid() && fresh(transformer) && fresh(creator)
      ensures !transformer.Enabled() && !creator.Enabled()
    {
      transformer := new TransformerGui();
      creator := new RectanglesCreatorGui();
    }

    /** `_update_modifiers`: the creator follows the shift key only while the transformer is disabled. */
    method UpdateModifiers(shift: bool)
      requires Valid()
      modifies creator
      ensures Valid()
      ensures creator.mode == RoutedCreatorMode(transformer.Enabled(), old(creator.mode), shift)
      ensures transformer.Enabled() ==> unchanged(creator)
    {
      if !transformer.Enabled() {
        creator.UpdateModifiers(shift);
      }
    }

    /**
     * `_handle_mouse_event`. The modifiers are updated first. The event then
     * goes to the creator when it is enabled, and to the transformer
     * otherwise. What the receiving GUI does is stated by its own methods.
     * Here: the GUI that does not receive the event keeps its state, and an
     * enabled transformer leaves the creator alone.
     */
    method HandleMouseEvent(event: MouseEvent, shift: bool, pos: Point, scenePos: Point, hit: PointItem?,
                            selection: Selection, sqrt: real -> real,
                            solve: (seq<seq<real>>, seq<real>) -> seq<real>)
      returns (failure: Option<Error>)
      requires ExactSqrt(sqrt) && Valid()
      requires hit != null && hit.owner != null ==> hit.owner.Valid()
      modifies creator, transformer, transformer.PolygonFrame(), transformer.draggedItem
      ensures Valid()
      ensures old(transformer.Enabled()) ==> unchanged(creator)
      ensures RoutedCreatorMode(old(transformer.Enabled()), old(creator.mode), shift) != Disabled ==>
                unchanged(transformer) && creator.Enabled() && failure == None
      ensures RoutedCreatorMode(old(transformer.Enabled()), old(creator.mode), shift) == Disabled ==>
                creator.mode == Disabled
    {
      failure := None;
      UpdateModifiers(shift);
      if creator.Enabled() {
        match event
        case PressEvent => creator.Press(pos, scenePos);
        case MoveEvent => creator.Move(pos, scenePos);
        case ReleaseEvent => creator.Release(pos, scenePos);
      } else {
        ghost var fitted, committed;
        failure, fitted, committed := transformer.Dispatch(event, hit, scenePos, selection, sqrt, solve);
      }
    }
  }
}
