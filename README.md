# Marble Majesty table configurator — a Dafny model

Marble Majesty is a shop site for marble and granite tables. Most of it is
presentation. This project models the parts that make decisions:

- The 3D table viewer:
  - the 2D outline of a generated table top, built from the chosen shape
    and dimensions, and its edge-profile bevel;
  - the fallback box used when there is no outline;
  - the scale that fits a loaded table-top model to the requested size;
  - the texture and colour of a top;
  - the height at which the top is placed on its base.
- The contact form: phone-number formatting and validation, and the
  submit gate.
- The configurator page:
  - which models it asks the viewer for;
  - its option tables and the summary line;
  - the reset button.
- The router's basename, and the build's base path and development proxy.
- The product page: product lookup, gallery, and the quantity and image
  counters.

How the modules are laid out:

- Each module follows one source file or component.
- `JsBuiltins` gives the few JavaScript built-ins the code relies on their
  JavaScript meaning:
  - `x || d` on numbers and strings;
  - `slice`, `startsWith`, `endsWith` and `split`;
  - a global regex replace that deletes a character class;
  - `Array.prototype.find`;
  - number-to-text in template literals.
- `ThreePath` is the 3D library's 2D path builder, which the outline code
  drives.

Modelling choices:

- Angles are whole quarter-turns, so every arc endpoint is exact.
- Lengths are mathematical reals.
- A value that is not in the source, such as a bounding-box size, a
  measurement, or what `Number(id)` returns, is a parameter.

## Model

| member | source | states |
|---|---|---|
| ThreePath.Sweep | src/components/ModelViewer.tsx:293 | the angle an arc covers: zero iff its two angles are equal, within a full turn in the arc's direction, and ending on the end angle modulo a turn |
| ThreePath.ArcEndsAtEndAngle | src/components/ModelViewer.tsx:311-323 | an arc ends at the point of its end angle, whichever way it turns |
| ThreePath.ShapePath.constructor | src/components/ModelViewer.tsx:290 | `new THREE.Shape()` starts with no curves at the origin |
| ThreePath.ShapePath.MoveTo | src/components/ModelViewer.tsx:309 | moving only changes the current point |
| ThreePath.ShapePath.LineTo | src/components/ModelViewer.tsx:313 | appends a line from the current point, which becomes the new current point |
| ThreePath.ShapePath.BezierCurveTo | src/components/ModelViewer.tsx:396-400 | appends a cubic curve from the current point through the two control points |
| ThreePath.ShapePath.AbsArc | src/components/ModelViewer.tsx:311 | appends the arc, preceded by a connecting line exactly when the path has curves and is not at the arc's start |
| ThreePath.ShapePath.ClosePath | src/components/ModelViewer.tsx:326 | adds a line back to the first curve's start exactly when the last curve does not end there |
| GeneratedTop.RectCornerRadius | src/components/ModelViewer.tsx:340-342 | the corner radius is the requested one or a quarter of the shorter side, whichever is smaller, so at most half of each half-side |
| GeneratedTop.SquareCornerRadius | src/components/ModelViewer.tsx:301-302 | the same clamp on a square side enlarged 1.3 times |
| GeneratedTop.RectRoundedIff | src/components/ModelViewer.tsx:342-346 | the rounded branch is taken iff a positive corner radius is requested and both sides are positive |
| GeneratedTop.SquareRoundedIff | src/components/ModelViewer.tsx:301-305 | the rounded branch for a square is taken iff the radius and the side are positive |
| GeneratedTop.RectClampExample | src/components/ModelViewer.tsx:342 | example, one instance: a 30 cm radius on a 200 x 100 cm top is clamped to 25 cm |
| GeneratedTop.CornerThenEdge | src/components/ModelViewer.tsx:311-313 | a corner arc that starts at the current point adds no connecting line; then the edge follows |
| GeneratedTop.TraceRoundedRect | src/components/ModelViewer.tsx:309-326 | the calls build exactly the four-arc, four-edge outline, and `closePath` adds nothing |
| GeneratedTop.TraceSharpRect | src/components/ModelViewer.tsx:329-333 | the calls build exactly the four box edges |
| GeneratedTop.TraceRect | src/components/ModelViewer.tsx:305-334 | the corner guard picks the rounded or the sharp outline |
| GeneratedTop.TraceCircle | src/components/ModelViewer.tsx:290-295 | one full-turn arc, and `closePath` adds nothing |
| GeneratedTop.TraceEllipse | src/components/ModelViewer.tsx:380-423 | four Bezier quadrants with offsets k*a and k*b, and `closePath` adds nothing |
| GeneratedTop.RoundShape | src/components/ModelViewer.tsx:288-297 | a circle of radius (radius or 100)/100, closed and gap-free |
| GeneratedTop.SquareShape | src/components/ModelViewer.tsx:298-336 | the square outline with the clamped radius, closed and gap-free |
| GeneratedTop.RectangularShape | src/components/ModelViewer.tsx:337-377 | the rectangle outline of (length or 200)/100 by (width or 100)/100, closed and gap-free |
| GeneratedTop.OvalShape | src/components/ModelViewer.tsx:378-425 | the ellipse with semi-axes (largest or 200)/200 and (smallest or 120)/200, closed and gap-free |
| GeneratedTop.GenerateShape | src/components/ModelViewer.tsx:279-431 | the outline the calls build equals the reference outline; whatever is returned is one closed, gap-free loop |
| GeneratedTop.OutlineRound | src/components/ModelViewer.tsx:288-297 | the reference outline of a round top is the circle |
| GeneratedTop.OutlineSquare | src/components/ModelViewer.tsx:298-336 | the reference outline of a square top |
| GeneratedTop.OutlineRectangular | src/components/ModelViewer.tsx:337-377 | the reference outline of a rectangular top |
| GeneratedTop.OutlineOval | src/components/ModelViewer.tsx:378-425 | the reference outline of an oval top |
| GeneratedTop.CircleOutlineFacts | src/components/ModelViewer.tsx:290-295 | the circle is closed, starts at (radius, 0) and sweeps a full turn |
| GeneratedTop.RoundedRectOutlineClosed | src/components/ModelViewer.tsx:309-326 | each edge starts where the preceding arc ends, the path returns to its start, and it starts at (-halfL, -halfW + r) |
| GeneratedTop.RoundedRectOutlineArcs | src/components/ModelViewer.tsx:311-323 | each corner arc has the corner radius and turns a quarter counter-clockwise, covering pi to 1.5pi to 0 to 0.5pi to pi |
| GeneratedTop.RoundedRectOutlineInBox | src/components/ModelViewer.tsx:309-326 | with a clamped radius the outline lies in the box and touches all four sides |
| GeneratedTop.SharpRectOutlineFacts | src/components/ModelViewer.tsx:329-333 | the sharp outline visits the corners, ends at (-halfL, -halfW), is closed, lies in the box and touches every side |
| GeneratedTop.RectOutlineClosed | src/components/ModelViewer.tsx:305-334 | either rectangle outline is closed and gap-free |
| GeneratedTop.RectOutlineInBox | src/components/ModelViewer.tsx:342-375 | with the clamp, either rectangle outline lies in its box and touches all four sides |
| GeneratedTop.EllipseOutlineFacts | src/components/ModelViewer.tsx:380-423 | the ellipse runs (a,0), (0,b), (-a,0), (0,-b), (a,0), is closed, and all control points lie in the box |
| GeneratedTop.OutlineNullIff | src/components/ModelViewer.tsx:280-283 | there is no outline iff the shape or the dimensions are missing, or the shape is not round, square, rectangular or oval |
| GeneratedTop.ProfileBevel | src/components/ModelViewer.tsx:443-480 | the bevel is enabled exactly for the five named profiles; for t >= 0, size <= thickness <= t/2; a disabled bevel is all zeros |
| GeneratedTop.ProfileBevelTable | src/components/ModelViewer.tsx:447-480 | the bevel of every profile as a proportion of the thickness and its segment count; 'standard' and unknown profiles have none |
| GeneratedTop.BullnoseExample | src/components/ModelViewer.tsx:465-470 | example, one instance: both bull-nose spellings give a 50 % bevel with 64 segments |
| GeneratedTop.Geometry | src/components/ModelViewer.tsx:434-497 | the 2 x t x 1 box iff there is no outline or extrusion throws; otherwise depth t, 128 curve segments and the profile's bevel |
| GeneratedTop.CreateGeometry | src/components/ModelViewer.tsx:434-497 | the settings assigned case by case are exactly the reference geometry |
| GeneratedTop.GeneratedTableTop | src/components/ModelViewer.tsx:227-497 | thickness defaults to 0.02 and the profile to 'straight'; an extruded outline is closed and gap-free |
| GeneratedTop.UnknownShapeGivesBox | src/components/ModelViewer.tsx:426-438 | any other shape, such as curved-rectangular, gives the fallback box |
| TableTop.MaterialTextures | src/components/ModelViewer.tsx:39-48 | the six materials with a texture, each mapped to its file under the texture directory |
| TableTop.TextureUrl | src/components/ModelViewer.tsx:103-105 | a material's own texture when it has one, otherwise white Calacatta; always one of the table's textures |
| TableTop.GeneratedTextureUrl | src/components/ModelViewer.tsx:245-248 | a generated top loads a texture iff its material has one, and then the same one as a loaded top |
| TableTop.MaterialColor | src/components/ModelViewer.tsx:502 | the material's colour when it has one, otherwise #8B7355 |
| TableTop.TexturesAndColoursAgree | src/components/ModelViewer.tsx:39-60 | exactly the materials with a texture have a colour |
| TableTop.ComputeScale | src/components/ModelViewer.tsx:114-175 | y is 1; no dimensions, no shape or an unknown shape give (1,1,1); round and square share one factor; rectangular maps x to length and z to width; oval maps the strictly larger axis to the largest diameter; a non-positive size keeps 1 |
| TableTop.UniformFactor | src/components/ModelViewer.tsx:129-135 | factor times current equals the target when current is positive, else 1 |
| TableTop.RoundFactor | src/components/ModelViewer.tsx:127-137 | one factor for x and z, bringing half the larger extent to the radius |
| TableTop.SquareFactor | src/components/ModelViewer.tsx:149-159 | one factor for x and z, bringing the larger extent to the side length |
| TableTop.RectangularFactors | src/components/ModelViewer.tsx:138-147 | the two factors bring length and width to their targets when both sizes are positive |
| TableTop.OvalFactors | src/components/ModelViewer.tsx:160-171 | the strictly longer axis reaches the largest diameter and the other the smallest |
| CombinedModel.ChooseTop | src/components/ModelViewer.tsx:749-770 | a loaded model iff there is a model path; a generated top iff there is none but a shape and a non-empty dimensions object |
| CombinedModel.TopThickness | src/components/ModelViewer.tsx:764 | the thickness, or 0.02 when it is missing or zero |
| CombinedModel.RenderAndPositioningAgree | src/components/ModelViewer.tsx:615 | a rendered generated top is positioned as one, a loaded model never is |
| CombinedModel.PlaceholderPositionsAsLoaded | src/components/ModelViewer.tsx:760-769 | with neither path nor shape the placeholder shows but the loaded-model positioning runs |
| CombinedModel.HeightDependsOnPreviousIff | src/components/ModelViewer.tsx:612-726 | the earlier height survives iff there is a base and both measurements find an empty box |
| CombinedModel.MeasuredBaseCarriesTop | src/components/ModelViewer.tsx:669-697 | a measured base puts the top exactly at the box's max.y |
| CombinedModel.ThrowOffsetsByHalfThickness | src/components/ModelViewer.tsx:650-707 | on a throw a loaded model sits half a thickness above a generated top, at 0.3 + t/2 against 0.3 |
| CombinedModel.CombinedModelState.constructor | src/components/ModelViewer.tsx:608-609 | height 0.3, not positioned |
| CombinedModel.CombinedModelState.ModelsChanged | src/components/ModelViewer.tsx:723-725 | clears isPositioned; without a base rests the top at half thickness and sets it again; with a base waits for a measurement |
| CombinedModel.CombinedModelState.MeasureTimer | src/components/ModelViewer.tsx:619-656 | the first measurement's height and which timer comes next; a generated top is placed at once |
| CombinedModel.CombinedModelState.RetryTimer | src/components/ModelViewer.tsx:683-697 | a box sets the height, a throw gives half thickness, a second empty box changes nothing |
| CombinedModel.CombinedModelState.PositionTimer | src/components/ModelViewer.tsx:700-703 | a loaded model is placed |
| CombinedModel.CombinedModelState.FireTimers | src/components/ModelViewer.tsx:619-711 | after all the timers the top is placed at the height of the outcome table |
| CombinedModel.CombinedModelState.ShowModels | src/components/ModelViewer.tsx:612-726 | a model change and its timers end placed at the tabled height |
| ContactForm.GroupedShape | src/pages/Contact.tsx:36-59 | the grouped digits have one '-' after each full group and digits everywhere else, with the length that follows |
| ContactForm.GroupedDigits | src/pages/Contact.tsx:36-59 | removing the dashes gives back the first eight digits |
| ContactForm.GroupedIgnoresExtra | src/pages/Contact.tsx:34 | cutting to eight digits first changes nothing |
| ContactForm.FormatPhoneNumber | src/pages/Contact.tsx:18-63 | the step-by-step formatter returns the declarative phone format |
| ContactForm.GroupMoldovan | src/pages/Contact.tsx:36-46 | "+373" and the digits grouped 3-2-3 |
| ContactForm.GroupOther | src/pages/Contact.tsx:50-59 | '+' and the digits grouped 3-3-2 |
| ContactForm.DigitsOfCleaned | src/pages/Contact.tsx:20-25 | the digits of the cleaned value are the input's digits |
| ContactForm.PhoneFormatCases | src/pages/Contact.tsx:18-63 | '' for nothing kept; "+373" and the digits after 373 for a Moldovan number; '+' and the digits otherwise |
| ContactForm.PhoneFormatAlphabet | src/pages/Contact.tsx:20-62 | the output holds only digits, '+' and '-', and is '' or starts with '+' |
| ContactForm.PhoneFormatEmptyIff | src/pages/Contact.tsx:20-28 | the output is '' iff the input has no digit and no '+' |
| ContactForm.MoldovanKeepsEightDigits | src/pages/Contact.tsx:32-47 | a value starting "+373" keeps at most eight further digits, grouped 3-2-3 |
| ContactForm.OtherKeepsEightDigits | src/pages/Contact.tsx:50-60 | any other number keeps at most eight digits after '+', grouped 3-3-2 |
| ContactForm.MoldovanGroupingValid | src/pages/Contact.tsx:36-47 | eight or more digits after +373 format to a valid number |
| ContactForm.PhoneFormatValidIff | src/pages/Contact.tsx:65-69 | the output is valid iff the input is Moldovan with at least eight digits after 373 |
| ContactForm.EightDigitsFormatValid | src/pages/Contact.tsx:32-47 | "+373" followed by exactly eight digits, with any separators, formats to a valid number |
| ContactForm.PhoneFormatIdempotent | src/pages/Contact.tsx:78-80 | formatting a formatted value returns it unchanged |
| ContactForm.MoldovanIdempotent | src/pages/Contact.tsx:32-47 | a formatted Moldovan number is a fixed point of the formatter |
| ContactForm.PrefillIsFormatted | src/pages/Contact.tsx:71-75 | example, one instance: the prefill "+373" is already formatted and is not yet valid |
| ContactForm.ContactPage.constructor | src/pages/Contact.tsx:9-16 | all fields and the error start empty |
| ContactForm.ContactPage.PhoneFocus | src/pages/Contact.tsx:71-76 | pre-fills "+373" only when the phone is empty |
| ContactForm.ContactPage.PhoneChange | src/pages/Contact.tsx:78-87 | stores the formatted value, a fixed point of the formatter, and shows the error iff it is non-empty and invalid |
| ContactForm.ContactPage.Change | src/pages/Contact.tsx:111-113 | stores the text in the named field and nowhere else |
| ContactForm.ContactPage.Submit | src/pages/Contact.tsx:89-109 | sends iff the phone is valid; then every field and the error are cleared, otherwise nothing changes but the error |
| Configurator.TableModel | src/pages/Configurator.tsx:71-81 | the shape's model, or RectangleTable21.glb for an unknown shape; always a model of the table |
| Configurator.TableTopPath | src/pages/Configurator.tsx:80-83 | always "/models/" followed by one of the table-top models |
| Configurator.BasePath | src/pages/Configurator.tsx:85-91 | "/models/" and the model of the first matching style; undefined when nothing matches or the model is empty |
| Configurator.KnownBaseStyleHasPath | src/pages/Configurator.tsx:55-91 | each of the twelve styles gets the path of its own model |
| Configurator.BaseStyleValuesDistinct | src/pages/Configurator.tsx:55-68 | no two base styles share a value |
| Configurator.ViewerAlwaysLoadsModel | src/pages/Configurator.tsx:145-151 | from this page the viewer shows and positions a loaded model, never a generated top |
| Configurator.LabelOf | src/pages/Configurator.tsx:371-392 | the label of the first option with the value; undefined iff none has it |
| Configurator.BaseLabelOf | src/pages/Configurator.tsx:398 | the same lookup in the base styles |
| Configurator.SlotText | src/pages/Configurator.tsx:383-386 | a slider's first value as decimal text, "undefined" when there is none |
| Configurator.CornerClauseIff | src/pages/Configurator.tsx:385 | for a rectangular shape the corner-radius clause shows iff the radius is positive |
| Configurator.RectangularCornerClause | src/pages/Configurator.tsx:385 | the rectangular clause ends with the corner-radius text iff the radius is positive |
| Configurator.RoundSummaryShowsRadius | src/pages/Configurator.tsx:383 | equal round summaries mean equal radii |
| Configurator.UnknownShapeHasNoSummary | src/pages/Configurator.tsx:383-386 | a shape outside the table has no dimensions line |
| Configurator.UntexturedMaterial | src/pages/Configurator.tsx:31-38 | nero-marquina, nero-assoluto and natural have no texture, so they get white Calacatta |
| Configurator.TexturedMaterial | src/pages/Configurator.tsx:31-38 | the three marbles have their own texture |
| Configurator.InitialMaterialLabel | src/pages/Configurator.tsx:19-38 | example, one instance: the initial material has the label "Marmură Carrara" |
| Configurator.InitialShapeLabel | src/pages/Configurator.tsx:20-46 | example, one instance: the initial shape has the label "Dreptunghiulară" |
| Configurator.InitialEdgeFinishLabel | src/pages/Configurator.tsx:28-53 | example, one instance: the initial finish has the label "Lustruită" |
| Configurator.InitialBaseStyleLabel | src/pages/Configurator.tsx:29-68 | example, one instance: the initial base style has the label "Piedestal" |
| Configurator.ConfiguratorState.constructor | src/pages/Configurator.tsx:19-29 | every slot holds its initial value |
| Configurator.ConfiguratorState.ResetConfig | src/pages/Configurator.tsx:95-106 | every slot holds its initial value again |
| Configurator.InitialSummary | src/pages/Configurator.tsx:385 | example, one instance: the initial summary reads "200 cm (rază colțuri: 5 cm)" |
| Configurator.InitialRectangularSummary | src/pages/Configurator.tsx:19-29 | example, one instance: a 200 cm length with a 5 cm corner radius reads "200 cm (rază colțuri: 5 cm)" |
| AppRouter.Basename | src/App.tsx:20-28 | the basename always starts with '/' |
| AppRouter.NormalizeBasename | src/App.tsx:20-28 | the reassigned variable ends as the basename |
| AppRouter.MissingBaseIsRoot | src/App.tsx:20 | example, one instance: a missing or empty base URL gives '/' |
| AppRouter.RootUnchanged | src/App.tsx:22 | example, one instance: '/' is kept as it is |
| AppRouter.ProductionBase | src/App.tsx:18-24 | example, one instance: '/marble-majesty-ui/' becomes '/marble-majesty-ui' |
| AppRouter.BasenameEdits | src/App.tsx:20-28 | at most one trailing '/' is removed, exactly when the URL is not the root and ends with one; one '/' is prepended iff what is left lacks it |
| AppRouter.FixedPointsIff | src/App.tsx:20-28 | a base URL is unchanged iff it starts with '/' and is the root or does not end with '/' |
| AppRouter.SlashedNameBase | src/App.tsx:20-28 | "/name/" becomes "/name", which is unchanged by a second pass |
| ViteConfig.GetBasePath | vite.config.ts:11-20 | '/' in development; '/' plus the second field of the repository variable plus '/' when it is set; otherwise '/marble-majesty-ui/' |
| ViteConfig.RepositoryBase | vite.config.ts:16-18 | "owner/repo" gives "/repo/" |
| ViteConfig.RouterAcceptsBase | vite.config.ts:11-20 | every configured base reaches the router as the root or as one "/name" segment |
| ViteConfig.Rewrite | vite.config.ts:31 | only a leading '/api/allinstone' is replaced; other paths pass unchanged |
| ViteConfig.RewriteKeepsRest | vite.config.ts:31 | what follows the prefix is kept verbatim |
| ViteConfig.DevTextureMatchesProduction | vite.config.ts:28-31 | a development texture request is proxied to the URL a production build requests |
| ProductDetail.FindProduct | src/pages/ProductDetail.tsx:27 | the first product with the requested id, else the first product |
| ProductDetail.ProductIds | src/pages/ProductDetail.tsx:13-20 | the ids are 1 to 6 in order, hence distinct |
| ProductDetail.LookupById | src/pages/ProductDetail.tsx:27 | every product is reached by its own id |
| ProductDetail.UnknownIdShowsFirst | src/pages/ProductDetail.tsx:27 | NaN or a number that is not an id shows the first product |
| ProductDetail.Images | src/pages/ProductDetail.tsx:28 | three images, the product's own first |
| ProductDetail.ProductPage.constructor | src/pages/ProductDetail.tsx:24-28 | quantity 1, the first image, the looked-up product's gallery |
| ProductDetail.ProductPage.Shown | src/pages/ProductDetail.tsx:55 | the image shown is one of the gallery's |
| ProductDetail.ProductPage.Minus | src/pages/ProductDetail.tsx:119 | max(1, quantity - 1), so never below 1 |
| ProductDetail.ProductPage.Plus | src/pages/ProductDetail.tsx:126 | quantity goes up by exactly 1 |
| ProductDetail.ProductPage.SelectImage | src/pages/ProductDetail.tsx:61-64 | a thumbnail selects its own index, which stays in range |
| JsBuiltins.NumberOr | src/components/ModelViewer.tsx:129 | `x \|\| d` on a number: x unless it is missing or zero |
| JsBuiltins.Find | src/pages/Configurator.tsx:86 | the first element satisfying the test, undefined iff none does |
| JsBuiltins.NatToDecimalRoundTrip | src/pages/Configurator.tsx:383 | reading back the decimal text of a number gives the number |
| JsBuiltins.IntToDecimalInjective | src/pages/Configurator.tsx:383 | distinct integers render as distinct texts |
| JsBuiltins.FilterTwice | src/pages/Contact.tsx:20-25 | filtering twice keeps what both filters keep |
| JsBuiltins.Split | vite.config.ts:17 | at least one piece, and no piece holds the separator; `SplitJoin` gives the contents |
| JsBuiltins.SplitJoin | vite.config.ts:17 | joining the pieces with the separator gives back the input, so with the pieces free of it the split is determined |
| JsBuiltins.SplitJoined | vite.config.ts:17 | splitting "a/b" gives back a and b |

## Left out

- Three.js calls are not modelled: meshes, lights, camera, texture loading, extrusion tessellation and bounding-box measurement. Sizes and measurements are parameters, and whether extrusion throws is a flag.
- Timer delays and their interleaving with other renders are not modelled. The model keeps the order in which one model change's callbacks run.
- The positioning effect registers no cleanup: the `clearTimeout` functions are returned by the inner `calculatePosition` and dropped. Every timer of an earlier run, outer measurement and nested retry alike, still fires after a later run. The model keeps one run's pending stage, so timers of earlier runs are not modelled.
- The positioning effect depends on the `onPositioned` callback, which the viewer recreates on every render. So the effect runs again on every render of the viewer, including each dimension or material change and once more after the first placement. The model lets `ModelsChanged` be called at any time but does not model when React calls it.
- The `onPositioned` callback and the viewer's own loading overlay are not modelled.
- CombinedModel.CombinedModelState.ModelsChanged: `isPositioned` is a boolean slot, so the brief false before it is set again (no base) is not observable in the model.
- Floating point is not modelled; lengths are reals. In floating point an arc's end point is a rounding error off the exact one. So `absarc` may insert a tiny bridging line (`CornerThenEdge`, hence `TraceRoundedRect`), and `closePath` a tiny closing line (`TraceCircle`, `TraceRoundedRect`), where the model proves there is none. The ellipse's Bezier end points are exact, so `TraceEllipse` holds in floating point too. NaN from `Number()`, `0.5522847498` as a float, and the trigonometry of arcs and Bezier curves between their endpoints are all left out.
- Object-prototype keys (`materialTextures['constructor']`) are not modelled; lookups use the literal tables.
- Texture and colour mutation of loaded scenes (`traverse`, `clone`) is not modelled, nor the texture repeat of generated tops.
- ContactForm.ContactPage.Submit: the browser's constraint validation (`required` on the name and phone inputs, `type="email"` on the email input) runs before the handler and can block the submit; it is not modelled, so "sends iff the phone is valid" holds for events that reach the handler.
- Slider bounds and steps, toasts and the error-boundary fallbacks are enforced by UI components that are not part of this model.
- Configurator: the `onValueChange` setters of the sliders and selects are plain slot assignments and are not modelled one by one.
- ProductDetail.ProductPage.SelectImage: the index comes from `images.map`, so the model requires it to be in range rather than taking any number.
- Navbar, Hero, Shop, About, Showroom and the other marketing sections hold no logic beyond rendering.

## Behaviour worth knowing

- A generated top's retry that again finds an empty box leaves the previous height in place. It does not fall back to half the thickness (`FinalHeight`, `HeightDependsOnPreviousIff`).
- 'curved-rectangular' has a loaded model, but the generator has no outline for it, so a generated top of that shape is the fallback box (`UnknownShapeGivesBox`).
- All bevel sizes are proportions of the thickness, and segment counts run from 16 to 64.
- With a repository variable that has no '/', the build base is "/undefined/". With an empty second field it is "//", which the router turns into "/" (`RouterAcceptsBase`).
