# TransformViewer2D: a Dafny model of the transformation engine

TransformViewer2D is a small Qt application. It lets the user move a polygon by a
plane transformation that they specify point by point. They drag a corner of the
polygon to a destination, then a second corner, and so on. Once enough pairs
have been given, a builder fits a transformation of the chosen kind to the
(source, destination) pairs. The polygon then moves by that transformation.

This project models the core of that application in Dafny and proves what it
promises:

- `geometry.dfy`, `matrices.dfy` and `outcomes.dfy` hold points, angles, 3x3 matrices and the `Result` and `Option` types.
- `transformations.dfy` models `transfromations/transformations.py` and the projective part of `linear_transformations.py`. A transformation acts on homogeneous coordinates. `compose` applies the argument first and the receiver second. `ComposedTransformation` applies its members in list order.
- `linear_transformations.dfy` models the translation, rigid, similarity and affine matrices.
- `areas.dfy` models the legal paths and their projections: the whole plane, and the circle that a rigid motion's second destination must lie on.
- `builders.dfy` models the builders as immutable pair lists: `move_point`, `legal_path`, `sources` and `is_done`. It also holds the translation fit and the rigid fit, with the bearing `angle`.
- `equation_system.dfy` models `EquationSystem` as a class over its row and right-hand-side lists.
- `fits.dfy` models how the similarity and affine builders lay out their 9 x 9 systems, and what any solution of those systems means. It also holds the dispatch of `get_transformation`.
- `shapes.dfy` models the point and polygon items: corner letters, the closed ring, and transformation in place.
- `ui.dfy` models `ui/main.py`:
  - the mode machine of the transformer GUI and of the rectangle creator GUI;
  - the routing of events between them in the view;
  - the window's choice of builder.

Three things cannot be computed exactly over `real`: the square root, the trigonometry and the linear solve.

- The square root is a parameter `sqrt`. Where a property depends on its exactness, `ExactSqrt(sqrt)` requires it to be the true root.
- An angle is represented by its cosine and sine. The engine only ever uses an angle through `math.cos` and `math.sin`.
- numpy's solver is a parameter `solve`. Its answer is accepted only when it satisfies the system.

## Model

| member | source | states |
|---|---|---|
| Transformations.Homogeneous | transfromations/linear_transformations.py:17-25 | definition, no contract: `to_matrix`, the column (x, y, 1); its properties are stated by `Transformations.HomogeneousRoundTrip` |
| Transformations.Dehomogenize | transfromations/linear_transformations.py:13-15 | definition, no contract: the division by the third coordinate in `transform_point`, `None` where it is zero; its properties are stated by `Transformations.HomogeneousRoundTrip` and `Transformations.DehomogenizeScale` |
| Transformations.Apply | transfromations/transformations.py:18-35 | definition, no contract: `transform_point` of the identity, of a chain and of a matrix; its properties are stated by `Transformations.IdentityApply`, `Transformations.ComposeApply`, `Transformations.ProjectiveProduct` and `LinearTransformations.AffineApply` |
| Transformations.ApplyChain | transfromations/transformations.py:32-35 | definition, no contract: a chain's members applied in list order; its properties are stated by `Transformations.ComposedTransformPoint` and `Transformations.ApplyChainAppend` |
| Transformations.Compose | transfromations/linear_transformations.py:27-33 | definition, no contract: `compose`, a matrix product for two matrices and a chain otherwise; its properties are stated by `Transformations.ComposeApply`, `Transformations.ComposeLength` and `Transformations.ProjectiveProduct` |
| Transformations.ComposedTransformPoint | transfromations/transformations.py:32-35 | the loop returns the chain's image: each member applied in list order to the previous output; an empty chain returns the point |
| Transformations.ApplyChainAppend | transfromations/transformations.py:32-35 | applying a concatenated chain is applying its first part, then feeding the result to its second part |
| Transformations.IdentityApply | transfromations/transformations.py:18-20 | the identity and the empty chain return their input unchanged |
| Transformations.ComposeApply | transfromations/transformations.py:4-6 | `self.compose(other)` maps p to self(other(p)): exactly when a chain is built, and wherever other(p) is defined when matrices are multiplied |
| Transformations.ComposeLength | transfromations/transformations.py:37-38 | composing with a chain puts the argument in front and lengthens the chain by one; a matrix composed with a non-matrix becomes the chain [other, self] |
| Transformations.HomogeneousRoundTrip | transfromations/linear_transformations.py:17-25 | the column (x, y, 1) of a point, divided through by its last entry, gives the point back |
| Transformations.DehomogenizeScale | transfromations/linear_transformations.py:13-15 | a nonzero multiple of a homogeneous vector divides to the same point, or is undefined likewise |
| Transformations.ProjectiveProduct | transfromations/linear_transformations.py:27-31 | the transformation of the matrix product self.M * other.M is other followed by self, wherever other is defined |
| Matrices.MatMulApply | transfromations/linear_transformations.py:31 | multiplying by a matrix product is multiplying by the right factor, then by the left |
| LinearTransformations.TranslationTransformation | transfromations/linear_transformations.py:36-44 | definition, no contract: the translation matrix; its properties are stated by `LinearTransformations.TranslationApply`, `LinearTransformations.TranslationCompose` and `LinearTransformations.BuiltAreAffine` |
| LinearTransformations.RigidTransformation | transfromations/linear_transformations.py:47-53 | definition, no contract: the rigid matrix; its properties are stated by `LinearTransformations.RigidApply`, `LinearTransformations.RigidIsSimilarity` and `LinearTransformations.RigidIsometry` |
| LinearTransformations.SimilarityTransformation | transfromations/linear_transformations.py:56-62 | definition, no contract: the similarity matrix; its properties are stated by `LinearTransformations.SimilarityApply` and `LinearTransformations.SimilarityScalesDistances` |
| LinearTransformations.AffineTransformation | transfromations/linear_transformations.py:65-71 | definition, no contract: the affine matrix; its properties are stated by `LinearTransformations.AffineApply` and `LinearTransformations.BuiltAreAffine` |
| LinearTransformations.BuiltAreAffine | transfromations/linear_transformations.py:36-71 | the translation, rigid, similarity and affine matrices all have bottom row (0, 0, 1) |
| LinearTransformations.AffineApply | transfromations/linear_transformations.py:13-15 | with bottom row (0, 0, 1) a point is always defined and goes to (a00 x + a01 y + a02, a10 x + a11 y + a12) |
| LinearTransformations.AffineCompose | transfromations/linear_transformations.py:27-31 | two affine maps compose into an affine map applying the right one first |
| LinearTransformations.TranslationApply | transfromations/linear_transformations.py:36-44 | `TranslationTransformation(x, y)` maps every p to p + (x, y) |
| LinearTransformations.TranslationCompose | transfromations/linear_transformations.py:36-44 | two translations compose into the translation by the sum of the shifts |
| LinearTransformations.RigidApply | transfromations/linear_transformations.py:47-53 | a rigid motion rotates by theta and then adds t; it maps the origin to t |
| LinearTransformations.RigidIsSimilarity | transfromations/linear_transformations.py:47-62 | the rigid matrix is the similarity matrix with a = cos theta and b = sin theta |
| LinearTransformations.SimilarityApply | transfromations/linear_transformations.py:56-62 | the similarity maps p to (a x - b y + tx, b x + a y + ty) |
| LinearTransformations.SimilarityScalesDistances | transfromations/linear_transformations.py:56-62 | a similarity multiplies every squared distance by a^2 + b^2 |
| LinearTransformations.RigidIsometry | transfromations/linear_transformations.py:47-53 | a rigid motion whose cosine and sine square-sum to 1 keeps every distance |
| Areas.Size | transfromations/areas.py:5-6 | definition, no contract: `size`; its properties are stated by `Areas.SizeIsLength` |
| Areas.Distance | transfromations/areas.py:9-10 | definition, no contract: `distance`; its properties are stated by `Areas.DistanceIsMetric` |
| Areas.Project | transfromations/areas.py:23-78 | definition, no contract: `project_point` of the base, circle and whole-plane paths; its properties are stated by `Areas.ProjectIdentity`, `Areas.ProjectCentre`, `Areas.ProjectOnRay`, `Areas.ProjectOnCircle`, `Areas.ProjectIdempotent` and `Areas.ProjectTwice` |
| Areas.SizeIsLength | transfromations/areas.py:5-6 | `size` is non-negative, squares to x^2 + y^2, and is zero only for the zero vector |
| Areas.DistanceIsMetric | transfromations/areas.py:9-10 | `distance` is symmetric, non-negative, and zero exactly between equal points |
| Areas.NewCirclePath | transfromations/areas.py:33-36 | a circle path is built exactly when the radius is positive; otherwise the constructor fails |
| Areas.ProjectIdentity | transfromations/areas.py:77-78 | the whole-plane path and the base path leave every point where it is |
| Areas.ProjectCentre | transfromations/areas.py:54-56 | the centre itself is projected to centre + (0, radius) |
| Areas.ProjectOnRay | transfromations/areas.py:57-58 | any other point goes to the centre plus a positive multiple of its offset from the centre: onto the ray through it |
| Areas.ProjectOnCircle | transfromations/areas.py:59-61 | the projection lies at distance exactly radius from the centre (the code's two 1e-4 asserts, exactly) |
| Areas.ProjectIdempotent | transfromations/areas.py:47-62 | a point already on the circle is left where it is |
| Areas.ProjectTwice | transfromations/areas.py:47-62 | projecting twice onto any legal path is projecting once |
| EquationSystems.Zeros | transfromations/transformations_builders.py:127 | the initial row has n_rows * n_columns entries, all zero |
| EquationSystems.EquationSystem.constructor | transfromations/transformations_builders.py:113-117 | a new system has its dimensions and no equations |
| EquationSystems.EquationSystem.Index | transfromations/transformations_builders.py:119-120 | the row-major index of an in-range entry is an in-range unknown |
| EquationSystems.EquationSystem.CreateEq | transfromations/transformations_builders.py:126-130 | the loop yields the zero row with each listed coefficient assigned to its index in list order |
| EquationSystems.FillWrites | transfromations/transformations_builders.py:126-130 | a filled row holds, at the index of each pair that no later pair overwrites, that pair's coefficient |
| EquationSystems.FillKeeps | transfromations/transformations_builders.py:126-130 | a filled row keeps the original entry wherever no pair writes |
| EquationSystems.CombineSparseRow | transfromations/transformations_builders.py:126-130 | the dense row of a sparse equation with distinct indices has the sparse equation's value at every x |
| EquationSystems.EquationSystem.AddEquation | transfromations/transformations_builders.py:122-124 | one right-hand side and its dense row are appended, in lockstep |
| EquationSystems.EquationSystem.GetSolution | transfromations/transformations_builders.py:132-137 | on a square system, the solver's answer is returned exactly when it solves every equation; otherwise the system is reported singular |
| Builders.NPairs | transfromations/transformations_builders.py:54-56 | definition, no contract: the pair count each kind passes to `MultiSrcDstBuilder.__init__`: 1, 2, 2 and 3; its properties are stated by `Builders.MovePointCounts` |
| Builders.IsDone | transfromations/transformations_builders.py:58-59 | definition, no contract: `is_done`; its properties are stated by `Builders.MovePointCounts` |
| Builders.Sources | transfromations/transformations_builders.py:68-69 | one source per pair, in commit order |
| Builders.LegalPathFor | transfromations/transformations_builders.py:89-95 | every legal path handed out is valid (a circle has a positive radius) |
| Builders.LegalPathRefused | transfromations/transformations_builders.py:89-95 | the legal path fails exactly for a rigid builder's second source when it equals the first source |
| Builders.MovePoint | transfromations/transformations_builders.py:61-66 | a new builder of the same kind: the old pairs followed by one pair from src to dst projected onto src's legal path; it fails exactly when the legal path does |
| Builders.MovePointCounts | transfromations/transformations_builders.py:58-59 | a move keeps the pair count within the kind's count, and the builder is done exactly when that count is reached |
| Builders.SourcesAfterMove | transfromations/transformations_builders.py:61-69 | after a move the sources are the old sources followed by src |
| Builders.UnconstrainedMove | transfromations/transformations_builders.py:76-77 | translation, similarity and affine builders, and a rigid builder's first move, store dst exactly as given |
| Builders.RigidSecondMove | transfromations/transformations_builders.py:89-95 | a rigid builder's second move fails exactly on the first source; otherwise the new destination is as far from the first destination as the new source is from the first source |
| Builders.MovePointConsistent | transfromations/transformations_builders.py:61-66 | every move keeps a rigid builder's two sources distinct and its two segments of equal length |
| Builders.TranslationGetTransformation | transfromations/transformations_builders.py:79-82 | definition, no contract: the translation builder's `get_transformation`; its properties are stated by `Builders.TranslationFit` and `Fits.FitTranslates` |
| Builders.Bearing | transfromations/transformations_builders.py:202-209 | definition, no contract: `angle`, as a cosine and sine; its properties are stated by `Builders.BearingIs` |
| Builders.TranslationFit | transfromations/transformations_builders.py:79-82 | the fitted translation is affine and maps the source exactly onto the destination |
| Builders.BearingIs | transfromations/transformations_builders.py:202-209 | for distinct points, `angle` has cosine dy / distance and sine dx / distance, including the pi/2 and 2 pi - res branches |
| Builders.RigidRotationTurns | transfromations/transformations_builders.py:99-105 | the rotation by angle(src1, src2) - angle(dst1, dst2) turns the source segment into the destination segment when both have the same length |
| Builders.RigidGetTransformation | transfromations/transformations_builders.py:97-109 | definition, no contract: the rigid builder's `get_transformation` with the exact shift; its properties are stated by `Builders.RigidFit`, `Builders.RigidBuilderFit` and `Fits.FitRigidIsometry` |
| Builders.RigidFit | transfromations/transformations_builders.py:97-109 | with the exact shift, the first source always lands on the first destination, and the second lands on the second whenever the rotation turns one segment into the other |
| Builders.RigidBuilderFit | transfromations/transformations_builders.py:97-109 | a done rigid builder with distinct sources and equal-length segments is fitted exactly: both sources land on their destinations |
| Builders.Truncate | transfromations/transformations_builders.py:108 | definition, no contract: a float given to the integer `QtCore.QPoint`, truncated toward zero; its properties are stated by `Builders.RigidTruncationMisses` |
| Builders.RigidFromAngleAsWritten | transfromations/transformations_builders.py:97-109 | definition, no contract: the rigid builder's `get_transformation` as written, with the truncated shift; its properties are stated by `Builders.RigidTruncationMisses` |
| Builders.RigidTruncationMisses | transfromations/transformations_builders.py:106-109 | the fit as written, with the shift truncated to integers, sends the first source of a consistent builder to (0.8, -0.6) instead of (0, 0) |
| Fits.SquareSystems | transfromations/transformations_builders.py:146-156 | a done similarity or affine builder lays out exactly 9 equations, as many as unknowns |
| Fits.AddPairEquations | transfromations/transformations_builders.py:147-151 | the loops over the pairs append each pair's two equations, in pair order |
| Fits.AddOnePair | transfromations/transformations_builders.py:148-151 | the inner loop appends one pair's two equations: row i of the matrix sends the source to coordinate i of the destination |
| Fits.AddKnownEquation | transfromations/transformations_builders.py:152-156 | each constraint row appends its dense row and its right-hand side |
| Fits.AddBottomRow | transfromations/transformations_builders.py:154-156 | the three equations m20 = 0, m21 = 0 and m22 = 1 are appended |
| Fits.SimilaritySystem | transfromations/transformations_builders.py:146-156 | the built system holds exactly the similarity layout: the pair equations, m00 - m11 = 0, m01 + m10 = 0, then the bottom row |
| Fits.AffineSystem | transfromations/transformations_builders.py:179-187 | the built system holds exactly the affine layout: the pair equations, then the bottom row |
| Fits.SolvesPair | transfromations/transformations_builders.py:147-151 | a solution's top rows send every source to its destination's x and y |
| Fits.SolvesBottomRow | transfromations/transformations_builders.py:154-156 | a solution's bottom row is (0, 0, 1) |
| Fits.SimilaritySolution | transfromations/transformations_builders.py:146-167 | any solution of the similarity system has m00 = m11, m01 = -m10 and bottom row (0, 0, 1); the similarity unpacked from it maps every source to its destination |
| Fits.SimilarityMapsPoint | transfromations/transformations_builders.py:158-167 | unpacking a = m00, b = m10, tx = m02, ty = m12 keeps the top rows when m00 = m11 and m01 = -m10 |
| Fits.AffineSolution | transfromations/transformations_builders.py:179-196 | any solution of the affine system has bottom row (0, 0, 1), and the affine map unpacked from it maps every source to its destination |
| Fits.AffineMapsPoint | transfromations/transformations_builders.py:189-196 | the affine map of the unpacked top rows sends a point where those rows do |
| Fits.SimilarityGetTransformation | transfromations/transformations_builders.py:144-167 | the result is the similarity of the solver's answer exactly when it solves the laid-out system; then it is a similarity matrix mapping every source to its destination; otherwise the system is singular |
| Fits.AffineGetTransformation | transfromations/transformations_builders.py:177-196 | the result is the affine map of the solver's answer exactly when it solves the system; then it is affine and maps every source to its destination; otherwise the system is singular |
| Fits.Fit | transfromations/transformations_builders.py:42-43 | the fit each builder kind's `get_transformation` computes; only similarity and affine fits can fail, and only as a singular system |
| Fits.FitSound | transfromations/transformations_builders.py:42-43 | every fit is affine, a similarity builder's fit is a similarity, and every fit of a consistent builder maps every source to its destination |
| Fits.FitTranslates | transfromations/transformations_builders.py:79-82 | a translation builder's fit moves every point by the offset from its source to its destination |
| Fits.FitRigidIsometry | transfromations/transformations_builders.py:97-109 | a consistent rigid builder's fit keeps the distance between any two points |
| Builders.RigidRotationUnit | transfromations/transformations_builders.py:101 | the difference of the two bearings of a consistent pair is a true rotation: cos^2 + sin^2 = 1 |
| Fits.GetTransformation | transfromations/transformations_builders.py:41-43 | the result is exactly the builder's fit; translation and rigid builders always fit; only similarity and affine fits can fail, and only as singular; every fit is affine; every fit of a consistent builder maps every source to its destination |
| Shapes.AbcIsAlphabet | shapes/shapes.py:3 | the labels are the 26 consecutive letters from 'A' |
| Shapes.Ring | shapes/shapes.py:103-104 | the ring has one point more than the corners and starts with the corners in order |
| Shapes.RingClosed | shapes/shapes.py:103-104 | the ring's last point is its first |
| Shapes.RingTransform | shapes/shapes.py:76-82 | closing the ring of transformed corners is transforming the closed ring |
| Shapes.PointItem.constructor | shapes/shapes.py:7-17 | the item holds its point, owner and letter |
| Shapes.PointItem.MoveTo | shapes/shapes.py:19-21 | the stored point becomes the given point |
| Shapes.PointItem.MyTransform | shapes/shapes.py:35-37 | the stored point becomes the image of the old point |
| Shapes.NewCorners | shapes/shapes.py:71 | one fresh item per point while letters last, all distinct, owned by the polygon, item i holding point i and letter i |
| Shapes.PolygonItem.constructor | shapes/shapes.py:68-74 | min(n, 26) fresh corner items owned by the polygon; item i holds point i and letter i; the ring is closed over them |
| Shapes.PolygonItem.MyTransform | shapes/shapes.py:76-82 | every corner moves to its image, once; the items, owners and letters stay; the ring is rebuilt from the new corners |
| Shapes.RectangleCorners | shapes/shapes.py:118-119 | the corners run top-left, top-right, bottom-right, bottom-left, so each side is horizontal or vertical in turn |
| Shapes.NewRectangleItem | shapes/shapes.py:110-119 | a rectangle item is a fresh valid polygon item over those four corners |
| Gui.TransformationBuilder | ui/main.py:369-386 | a fresh, empty builder; similarity, affine and rigid exactly when they are the first checked of their kinds in form order; translation for everything else |
| Gui.TransformerGui.constructor | ui/main.py:115-121 | a new transformer GUI is disabled with no builder, corner, marker, polygon or temporary item |
| Gui.TransformerGui.InitDrag | ui/main.py:184-189 | builder, corner, marker and polygon are cleared and no temporary item remains; the mode is kept |
| Gui.TransformerGui.Target | ui/main.py:178-180 | the marker's place exists, is a fixed point of the legal path's projection, and keeps a rigid motion's segment length |
| Gui.TransformerGui.Committed | ui/main.py:125-128 | the committed builder appends (corner, marker's place) to the pairs, adds the corner to the sources, and stays consistent |
| Gui.TransformerGui.UpdateDragging | ui/main.py:178-182 | the marker moves to the cursor projected onto the corner's legal path |
| Gui.TransformerGui.StartDragging | ui/main.py:162-176 | drag mode with the corner recorded and a fresh ownerless marker with its letter, drawn as a temporary item at the projected cursor |
| Gui.TransformerGui.Grabs | ui/main.py:141-153 | definition, no contract: the test that a press starts a drag: a corner is hit, and the GUI is disabled, or it is waiting and the corner is on its polygon and not already a source; its properties are stated by `Gui.TransformerGui.Press` and `Gui.TransformerGui.Dispatch` |
| Gui.TransformerGui.Enabled | ui/main.py:87-88 | definition, no contract: `enabled`, a mode other than disabled; its properties are stated by `Gui.View.UpdateModifiers` and `Gui.View.HandleMouseEvent` |
| Gui.TransformerGui.Press | ui/main.py:140-153 | a press on a corner starts a drag: when disabled, with a fresh builder from the form and the corner's polygon; when waiting, only on the same polygon and a corner not yet a source; any other press changes nothing |
| Gui.TransformerGui.Move | ui/main.py:155-157 | only a drag moves the marker |
| Gui.TransformerGui.Release | ui/main.py:123-138 | only a drag reacts, and it commits the projected pair. An unfinished builder is stored and the GUI waits. A finished one disables the GUI and fits: the release fails exactly when the committed builder's fit does, and otherwise applies exactly that fit, which maps every committed source to its destination, moves every corner to its image, keeps the same corner items and clears the GUI. A failed fit leaves the builder, polygon, corner, marker and temporary items as they were |
| Gui.TransformerGui.AwaitNextPair | ui/main.py:134-138 | an unfinished builder is stored, the corner and marker are dropped and the GUI waits |
| Gui.TransformerGui.Finish | ui/main.py:129-133 | the GUI is disabled; it fails exactly when the done builder's fit does; otherwise it applies exactly that fit, moving the polygon's corners to their images while keeping the same corner items, and clears the drag; a failure reports a singular system and changes nothing but the mode |
| Gui.TransformerGui.MovePolygon | ui/main.py:131-132 | every corner moves to its image under the affine fit, the same corner items stay in the polygon, the ring is rebuilt, and the drag is cleared |
| Gui.TransformerGui.ResetAsWritten | ui/main.py:159-160 | resetting while dragging or waiting leaves the GUI enabled in a broken state (see Findings) |
| Gui.TransformerGui.Reset | ui/main.py:159-160 | reset returns to the disabled, cleared state |
| Gui.ModeAfterModifiers | ui/main.py:276-284 | after a modifier change the creator is enabled exactly when shift is held; shift never interrupts a wait or a drawing |
| Gui.RectanglesCreatorGui.Enabled | ui/main.py:87-88 | definition, no contract: `enabled`, a mode other than disabled; its properties are stated by `Gui.View.UpdateModifiers` and `Gui.View.HandleMouseEvent` |
| Gui.RectanglesCreatorGui.constructor | ui/main.py:250-256 | a new creator is disabled, with origin and target at (0, 0) |
| Gui.RectanglesCreatorGui.AddCurrentRectangle | ui/main.py:286-289 | the rectangle from the press to the last move is handed over; nothing else changes |
| Gui.RectanglesCreatorGui.Release | ui/main.py:258-261 | a release while drawing hands the rectangle over and waits; otherwise nothing changes |
| Gui.RectanglesCreatorGui.Press | ui/main.py:263-268 | a press while waiting starts drawing at the cursor; otherwise nothing changes |
| Gui.RectanglesCreatorGui.Move | ui/main.py:270-274 | a move while drawing sets the far corner; otherwise nothing changes |
| Gui.RectanglesCreatorGui.UpdateModifiers | ui/main.py:276-284 | the mode follows shift, and letting go of shift while drawing hands the rectangle over |
| Gui.RoutedCreatorMode | ui/main.py:340-342 | while the transformer is enabled the creator ignores the modifiers; otherwise it is enabled exactly when shift is held |
| Gui.View.constructor | ui/main.py:300-305 | both GUIs start disabled |
| Gui.View.UpdateModifiers | ui/main.py:340-342 | only a disabled transformer lets the creator follow the modifiers; at most one GUI is enabled afterwards |
| Gui.TransformerGui.Dispatch | ui/main.py:331-338 | the transformer's share of routing. A press on a grabbable corner starts dragging it, with the marker at the projected cursor, and any other press changes nothing. A move changes no field, and while dragging it puts the marker at the projected cursor. A release never leaves the GUI dragging, and a release outside a drag changes nothing. A release while dragging commits the projected pair: the GUI waits if the committed builder needs more pairs, and otherwise it is disabled and fails exactly when that builder's fit does, applying that fit on success. Only a release can report a failure |
| Gui.View.HandleMouseEvent | ui/main.py:325-338 | after the modifier update, an enabled creator takes the event and the transformer is untouched; otherwise the creator is disabled and the transformer takes it; at most one GUI is ever enabled |

## Left out

- Drawing is not modelled: `get_path`, `get_brush`, `paint`, `shape`, `boundingRect`, colours, cursors and fonts. It does not change the state.
- `PolygonItem.mean` is not modelled. It calls `utils.utils.average`, which is not part of this model, and nothing in the core uses it.
- The check at `transfromations/areas.py:67-68` runs once at import and is not part of the engine.
- `utils/my_commands.py` and `ui/compile.py` only run shell commands.
- Qt plumbing is not modelled. This covers `PolygonFinder`, `TempItemDrawer`, `RectanglesDAST`, `RectanglesCreator`, the rubber band, `update_layout`, the dock, `MainWin.__init__`, `main()` and `scene_rect_changed`.
  - The point item under the cursor is a parameter.
  - The temporary items are a set field.
  - The handed-over rectangles are a list field. The item each one becomes is `Shapes.NewRectangleItem`.
- The rounding of `mapToScene(pos).toPoint()` is not modelled: the scene position is a parameter.
- The `print` at `ui/main.py:268` is left out.
- Floating point is replaced by exact reals. The 1e-4 tolerance asserts of `project_point` are proved exactly, in `Areas.ProjectOnCircle`.
- A perspective division by zero gives `None`. numpy gives an infinite or undefined point, which the model does not represent.
- `Shapes.PointItem.MyTransform` and `Shapes.PolygonItem.MyTransform` require the images to be defined. Every transformation a builder produces is affine, so they always are.
- The square root is a parameter. Its exactness is assumed where needed (`ExactSqrt`).
- Angles are represented by their cosine and sine. `acos`, `cos` and `sin` are not computed.
- `EquationSystems.EquationSystem.GetSolution`: numpy's `linalg.solve` is a parameter `solve`, whose answer is accepted only when it solves the system exactly, and otherwise `SingularSystem` is reported. numpy raises for a singular matrix, and for any other it returns its floating-point answer unchecked. So the model accepts a system that is singular but consistent whenever `solve` returns one of its solutions, where numpy raises `LinAlgError`. An example is an affine builder whose three sources are collinear and whose destinations are consistent with one affine map.
- `Transformations.Compose` requires a receiver other than the identity. `IdTransformation` has no `compose` method.
- `EquationSystems.EquationSystem.CreateEq` requires every index to be in range. The source raises `IndexError` otherwise, and every caller passes in-range indices.
- `Shapes.PolygonItem.constructor` requires at least one point. The source raises `IndexError` in `_get_polygon` for an empty list.
- `Gui.TransformerGui.Press` requires the polygon owning the pressed corner to be a well-formed polygon item. Every polygon item in the scene is built by its constructor.
- `Gui.TransformerGui.Release` returns a failed fit as a value. In the source the exception from `get_transformation` escapes the event handler.
- `Gui.View.HandleMouseEvent` states the routing, not what the receiving GUI does with the event. That GUI's own method states it.
- `angle(p, p)` follows the code: equal points share their y coordinate, so the result is pi/2. It is not treated as undefined.
- `Fits.Fit`, `Fits.GetTransformation`, `Fits.FitSound`, `Fits.FitRigidIsometry`, `Gui.TransformerGui.Finish` and `Gui.TransformerGui.Release` fit rigid builders with the exact shift, as corrected under Findings, not with the truncated shift of the code as written.

## Findings

| source | as written | input that shows it | evidently intended | confidence | as-written member | corrected member |
|---|---|---|---|---|---|---|
| transfromations/transformations_builders.py:108 | the rigid fit's shift goes through an integer `QtCore.QPoint`, which truncates both coordinates | sources (1, 0) and (1, 5), destinations (0, 0) and (3, 4); the rotation has cosine 0.8 and sine -0.6, the shift (-0.8, 0.6) becomes (0, 0), and the first source lands on (0.8, -0.6) instead of (0, 0) | keep the exact shift, so that both sources land on their destinations | not executed | Builders.RigidTruncationMisses | Builders.RigidBuilderFit |
| ui/main.py:159-160 | `reset` only calls `_init_drag` and keeps the mode; nothing in `ui/main.py` calls `reset`, so the defect is latent and shows only once a caller is added | if a caller resets while dragging: the GUI stays in DRAG with no builder, so the next move calls `legal_path` on None; reset while waiting: no corner matches the missing polygon, so the GUI stays enabled and the creator never sees shift again | also return to DISABLED | not executed | Gui.TransformerGui.ResetAsWritten | Gui.TransformerGui.Reset |
