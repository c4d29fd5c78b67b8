# Wireframe viewer core: pixel buffer, line rasteriser and mesh transform state

This project models the two sequential pieces at the heart of the viewer.

- **The software rasteriser of `Renderer`.** The CPU colour buffer is a flat array of
  `3 * width * height` floats; pixel `(x, y)` channel `c` sits at `(x + y * width) * 3 + c`.
  `PutPixel` writes one pixel and silently drops pixels outside the viewport.
  `ClearColorBuffer` fills the buffer column by column. `CreateBuffers` allocates and clears it.
  `DrawLine` is the integer error-accumulator line algorithm:
  - it orders the endpoints by x;
  - it classifies the slope into four regimes;
  - it steps the driving coordinate until it reaches the far endpoint, which is never drawn.

  The buffer is a Dafny `array<real>` owned by the class `Rendering.Renderer`. The methods
  work on it in place and are proved against specification functions on its contents:
  - `ColorBuffers.Plot` gives the buffer after one `PutPixel`;
  - `ColorBuffers.PaintLine` gives the buffer after a run of them;
  - `Lines.LinePixels` is the closed-form list of positions `DrawLine` visits. Its k-th entry
    is k steps along the driving axis and `ceil(minor * k / major)` steps along the other.

  `DrawLine`'s loop is proved to visit exactly that list. Its loop invariant keeps the error
  term equal to `ErrorBefore(minor, major, k)`, the recurrence the source's loop follows, and
  `AccumulatorClosedForm` proves that this equals `2 * minor * k - 2 * major * c` for the
  `c` corrections made so far. The properties of the visited positions are
  proved as lemmas about `LinePixels`:
  - the pixel count;
  - the first pixel, and that the far endpoint is never drawn;
  - 8-connectedness;
  - staying in the endpoints' bounding box;
  - staying within one unit of the exact segment;
  - what exchanging the endpoints does.

- **The transform state of `MeshModel`.** A model keeps:
  - ten component matrices: local and world scale, translate, and rotations about x, y and z;
  - two composed matrices, `localTransformMat` and `worldTransformMat`;
  - a model centre.

  Each setter overwrites one component. The translate and scale setters then recompute the
  composed matrix as `scale * translate`, and `transform` multiplies a vector by the eight
  matrices in a fixed order.

  A glm matrix is modelled as the word of glm factors it is a product of
  (`Transforms.Factor`: translate, scale, rotate). The identity is the empty word and the
  product is concatenation. Every equation between words also holds between the 4x4
  matrices, because matrix multiplication is associative with the identity as its unit.
  `Transforms.Apply` gives a word's action on a homogeneous vector:
  - translation and scaling are written out;
  - what `glm::rotate` does to a vector is a function parameter (`Transforms.Rotation`).

  The class `Meshes.MeshModel` holds the fields and updates them in place. Each setter is
  proved to take its state to the matching function of `Transforms`. The properties of the
  setters are lemmas about those functions:
  - which fields a setter changes, and that it leaves the rest alone;
  - overwriting;
  - the ignored second scale argument;
  - the model centre's odd y update;
  - the order in which `transform` applies the matrices.

Modules: `IntMath` (ceiling division and product facts), `Lines`, `ColorBuffers`,
`Rendering`, `Transforms`, `Meshes`.

## Model

| member | source | states |
|---|---|---|
| Rendering.Renderer.constructor | Viewer/src/Renderer.cpp:13-19 | records the viewport size and owns a fresh buffer of 3 * width * height entries, all 0.0 (black) |
| Rendering.Renderer.CreateBuffers | Viewer/src/Renderer.cpp:94-99 | allocates a fresh buffer of 3 * w * h entries and every entry is 0.0; w and h must equal the viewport fields the clear loops over |
| Rendering.Renderer.PutPixel | Viewer/src/Renderer.cpp:26-34 | the buffer becomes Plot of the old one: the three channels of (i, j) when 0 <= i < width and 0 <= j < height, otherwise unchanged |
| ColorBuffers.PlotAt | Viewer/src/Renderer.cpp:26-34 | entry by entry: entry n takes the colour's channel n % 3 exactly when the pixel is in the viewport and n is one of its three entries; every other entry keeps its value |
| ColorBuffers.PixelIndex | Viewer/src/Renderer.cpp:10 | INDEX of a pixel in the viewport lies in [0, 3 * width * height), and its quotient and remainder by 3 give back the pixel number and the channel |
| ColorBuffers.PixelUnique | Viewer/src/Renderer.cpp:10 | x + y * width identifies the pixel: equal numbers iff equal pixels (for 0 <= x < width) |
| ColorBuffers.PixelOfIndex | Viewer/src/Renderer.cpp:10 | every entry n of the buffer is channel n % 3 of the viewport pixel ((n / 3) % width, (n / 3) / width) |
| Rendering.Renderer.ClearColorBuffer | Viewer/src/Renderer.cpp:214-223 | after the nested loops every entry n of the buffer is channel n % 3 of the colour |
| ColorBuffers.ClearStep | Viewer/src/Renderer.cpp:216-222 | one PutPixel(i, j) extends the region already set to the colour (all earlier columns, the earlier rows of column i) by pixel (i, j) |
| ColorBuffers.ClearedAll | Viewer/src/Renderer.cpp:214-223 | once every column is set, every entry holds the colour's matching channel |
| Rendering.Renderer.DrawLine | Viewer/src/Renderer.cpp:36-92 | the loop terminates and the buffer becomes the old one with PutPixel applied to each position of LinePixels(p1, p2), in order |
| Rendering.LineSetup | Viewer/src/Renderer.cpp:39-78 | orders the endpoints by x (p1 first on a tie), selects the steep set-up iff abs(dy) > dx, the step signs of the regime, and error increments of 2 * major and 2 * minor |
| Lines.Classify | Viewer/src/Renderer.cpp:52-78 | the slope tests on exact integers: steep iff abs(dy) > dx, the downward steep regime only for dy < 0, the downward shallow regime exactly for 0 < dx and -dx <= dy <= 0, so a horizontal line (dy == 0 < dx) is drawn as downward shallow |
| Lines.LinePixels | Viewer/src/Renderer.cpp:80-90 | the positions DrawLine visits number exactly max(abs(dx), abs(dy)) |
| Lines.LinePixelAt | Viewer/src/Renderer.cpp:80-90 | the k-th visited position is k steps along the driving axis and ceil(minor * k / major) steps along the corrected axis from the start |
| Lines.LineEnds | Viewer/src/Renderer.cpp:39-90 | nothing is drawn iff p1 == p2; otherwise the first position is the endpoint with the smaller x (p1 on a tie), and the other endpoint is never visited |
| Lines.LineIsConnected | Viewer/src/Renderer.cpp:82-88 | successive positions differ by exactly 1 on the driving axis (y when abs(dy) > abs(dx), else x, rightwards) and by at most 1 on the other |
| Lines.LineStepAt | Viewer/src/Renderer.cpp:82-88 | the same for one step k of the walk |
| Lines.LineStaysBetween | Viewer/src/Renderer.cpp:82-89 | every visited position lies between the endpoints in both coordinates |
| Lines.LineTracksSegment | Viewer/src/Renderer.cpp:82-89 | every visited position r satisfies abs((r - p1) x (p2 - p1)) < max(abs(dx), abs(dy)), so it is within one unit of the segment along the corrected axis |
| Lines.LineSwap | Viewer/src/Renderer.cpp:41-45 | with p1.x != p2.x both argument orders visit the same positions; on a vertical line each order starts at its first argument and omits the other endpoint |
| Rendering.PlaceReachesEnd | Viewer/src/Renderer.cpp:80 | the loop test *theStart != theEnd fails exactly after max(abs(dx), abs(dy)) driving steps |
| Rendering.NudgeCorrects | Viewer/src/Renderer.cpp:84 | *coordinate1 += transform1 moves the walk one unit along the corrected axis of its regime |
| Rendering.NudgeDrives | Viewer/src/Renderer.cpp:88 | *coordinate2 += transform2 moves the walk one unit along the driving axis of its regime |
| Rendering.AccumulatorClosedForm | Viewer/src/Renderer.cpp:82-89 | before step k the loop has made ceil(minor * (k - 1) / major) corrections (none at k = 0) and e == 2 * minor * k - 2 * major * corrections |
| Rendering.CorrectionStep | Viewer/src/Renderer.cpp:82-86 | the test e > 0 makes a correction exactly when ceil(minor * k / major) exceeds the corrections made so far |
| Rendering.PixelAtStep | Viewer/src/Renderer.cpp:82-87 | the position PutPixel receives at step k is LinePixels(p1, p2)[k] |
| ColorBuffers.PaintLineAt | Viewer/src/Renderer.cpp:26-34 | after a run of PutPixel an entry holds the colour's channel iff a run position inside the viewport covers it, else its old value |
| ColorBuffers.PaintLineAtPixel | Viewer/src/Renderer.cpp:26-34 | pixel by pixel: a viewport pixel holds the colour iff it is one of the positions, else keeps its old channels |
| ColorBuffers.PaintLineClips | Viewer/src/Renderer.cpp:28-29 | a run with no position inside the viewport leaves the buffer unchanged |
| Meshes.MeshModel.constructor | Viewer/src/MeshModel.cpp:8-12 | stores faces, vertices and normals; the name stays "" because the argument is never stored; every transform field takes its default |
| Transforms.InitialState | Viewer/include/MeshModel.h:32-49 | the defaults keep the composed matrices in step with their components, both centres are (940, 660, 0), and transform is the identity |
| Meshes.MeshModel.GetFace | Viewer/src/MeshModel.cpp:18-21 | returns face index of the stored faces, which must be in range (the source does not check it) |
| Meshes.MeshModel.GetFacesCount | Viewer/src/MeshModel.cpp:23-26 | the number of stored faces |
| Meshes.MeshModel.GetVerticesCount | Viewer/src/MeshModel.cpp:28-31 | the number of stored vertices |
| Meshes.MeshModel.GetVertex | Viewer/src/MeshModel.cpp:33-35 | returns vertex i of the stored vertices, which must be in range (the source does not check it) |
| Meshes.MeshModel.GetModelName | Viewer/src/MeshModel.cpp:37-40 | always the empty string |
| Meshes.MeshModel.TranslateLocal | Viewer/src/MeshModel.cpp:42-49 | the state becomes Transforms.TranslateLocal of the old one: localTranslateMat is translate(x, y, z), localTransformMat is recomputed, the centre gains x in its x and y + z in its y; nothing else changes |
| Meshes.MeshModel.ScaleLocal | Viewer/src/MeshModel.cpp:51-55 | the state becomes Transforms.ScaleLocal of the old one: localScaleMat is scale(x, x, x), localTransformMat is recomputed; nothing else changes |
| Meshes.MeshModel.RotateLocalX | Viewer/src/MeshModel.cpp:57-60 | the state becomes Transforms.RotateLocalX of the old one: only localRotationMatX changes, to rotate(x degrees, (1, 0, 0)) |
| Meshes.MeshModel.RotateLocalY | Viewer/src/MeshModel.cpp:62-65 | the state becomes Transforms.RotateLocalY of the old one: only localRotationMatY changes, to rotate(x degrees, (0, 1, 0)) |
| Meshes.MeshModel.RotateLocalZ | Viewer/src/MeshModel.cpp:67-70 | the state becomes Transforms.RotateLocalZ of the old one: only localRotationMatZ changes, to rotate(x degrees, (0, 0, 1)) |
| Meshes.MeshModel.UpdateLocal | Viewer/src/MeshModel.cpp:72-75 | localTransformMat becomes localScaleMat * localTranslateMat, nothing else changes |
| Meshes.MeshModel.TranslateWorld | Viewer/src/MeshModel.cpp:77-81 | the state becomes Transforms.TranslateWorld of the old one: worldTranslateMat is translate(x, y, z), worldTransformMat is recomputed; nothing else changes |
| Meshes.MeshModel.ScaleWorld | Viewer/src/MeshModel.cpp:83-87 | the state becomes Transforms.ScaleWorld of the old one: worldScaleMat is scale(x, x, x), worldTransformMat is recomputed; nothing else changes |
| Meshes.MeshModel.RotateWorldX | Viewer/src/MeshModel.cpp:89-93 | the state becomes Transforms.RotateWorldX of the old one: only worldRotationMatX changes, to rotate(x degrees, (940, 0, 0)) |
| Meshes.MeshModel.RotateWorldY | Viewer/src/MeshModel.cpp:95-99 | the state becomes Transforms.RotateWorldY of the old one: only worldRotationMatY changes, to rotate(x degrees, (0, 660, 0)) |
| Meshes.MeshModel.RotateWorldZ | Viewer/src/MeshModel.cpp:101-105 | the state becomes Transforms.RotateWorldZ of the old one: only worldRotationMatZ changes, to rotate(x degrees, (0, 0, 1)) |
| Meshes.MeshModel.UpdateWorld | Viewer/src/MeshModel.cpp:107-110 | worldTransformMat becomes worldScaleMat * worldTranslateMat, nothing else changes |
| Meshes.MeshModel.Transform | Viewer/src/MeshModel.cpp:112-116 | changes nothing and returns v acted on by the local rotations (z, y, x), the local transform, the world rotations (z, y, x) and the world transform, in that order |
| Transforms.TransformOrder | Viewer/src/MeshModel.cpp:112-116 | the left-associated eight-matrix product acts as those matrices applied one after the other, rightmost first |
| Transforms.ApplyMul | Viewer/src/MeshModel.cpp:114 | (a * b) * v == a * (b * v) |
| Transforms.ComposedOrder | Viewer/src/MeshModel.cpp:72-75 | with the composed matrices in step, the local (and world) transform translates first and scales second |
| Transforms.SettersKeepComposed | Viewer/src/MeshModel.cpp:42-110 | every setter keeps localTransformMat == localScaleMat * localTranslateMat and the world counterpart |
| Transforms.RotateSettersKeepRest | Viewer/src/MeshModel.cpp:57-105 | each rotate setter changes only its own axis matrix: no composed matrix, centre or other component |
| Transforms.RotateSettersOverwrite | Viewer/src/MeshModel.cpp:57-105 | calling a rotate setter twice equals calling it once with the last angle |
| Transforms.ScaleIgnoresSecondArgument | Viewer/src/MeshModel.cpp:51-87 | scaleLocal(x, y) and scaleWorld(x, y) build the uniform scale (x, x, x) whatever y is |
| Transforms.SettersKeepOtherSide | Viewer/src/MeshModel.cpp:42-87 | world setters change only their component and worldTransformMat; local ones only their component, localTransformMat and, for translateLocal, the centre |
| Transforms.TranslateAndScaleOverwrite | Viewer/src/MeshModel.cpp:42-87 | the translate and scale matrices keep only the last call, but two translateLocal calls move the centre by both: x into its x, y and z into its y, nothing into its z |
| Transforms.ScaleAfterTranslateLocal | Viewer/src/MeshModel.cpp:42-75 | on a fresh model, translateLocal(t) then scaleLocal(a) sends a point p to a * (p + t) |

## Left out

- The OpenGL side of `Renderer` is left out as foreign GPU calls: `InitOpenglRendering`, `CreateOpenglBuffer`, `SwapBuffers`, texture and shader set-up.
- `new`/`delete[]` are not modelled, including the old buffer that leaks when `CreateBuffers` runs again. Dafny arrays are garbage-collected, and each model buffer is simply fresh.
- The projection paths are left out: `Render`'s face loop, `drawAxis`, `drawBoundingBox` and `drawNormals`. They are chains of float matrix products with a perspective divide and float-to-int truncation, and they depend on `Scene` and `Camera`, which are not part of this model.
- Renderer.h, Face.h, Scene and Camera are not part of this model. `Meshes.Face` is a stand-in holding vertex and normal index sequences.
- Rendering.Renderer.DrawLine: coordinates, deltas and the error `e` are unbounded integers, so 32-bit overflow on far-apart endpoints is not modelled.
- Rendering.Renderer.DrawLine: the double slope `m` is replaced by exact integer comparisons. This is the same test, including the infinities of `dx == 0` and the NaN of `dx == dy == 0`, under which every comparison fails.
- Rendering.Renderer.DrawLine: the `int*` pointers into `start` are replaced by the `steep` flag selecting which coordinate `Nudge` updates.
- Rendering.Renderer.CreateBuffers: requires `w` and `h` to equal the viewport fields, because the source sizes the buffer from its arguments but clears it over the fields.
- Rendering.Renderer.constructor: a negative width or height is excluded. In the source a negative product 3 * w * h makes `new float[]` throw, and a non-negative product from two negative sizes gives a buffer no pixel can reach.
- Rendering.Renderer.CreateBuffers: the size 3 * w * h is an unbounded integer, so `int` overflow of the product is not modelled.
- Rendering.Renderer.PutPixel: INDEX is computed on unbounded integers, so `int` overflow of (i + j * width) * 3 + c is not modelled.
- Rendering.Renderer.PutPixel: the colour channels are `real`, so float rounding of colour values is not modelled.
- Meshes.MeshModel.GetFacesCount: the `size_t` to `int` conversion is not modelled; the count is the exact length.
- Meshes.MeshModel.GetVerticesCount: the `size_t` to `int` conversion is not modelled; the count is the exact length.
- Meshes.MeshModel.GetFace: requires an in-range index, since out-of-range access is undefined in the source.
- Meshes.MeshModel.GetVertex: requires an in-range index, since out-of-range access is undefined in the source.
- Meshes.MeshModel.Transform: the numeric content of `glm::rotate` is not modelled. That includes the degree-to-radian factor and the normalisation glm applies to the unnormalised axes (940, 0, 0) and (0, 660, 0) of the world X and Y rotations, which makes them ordinary rotations about x and y; rotation is a function parameter instead.
- Meshes.MeshModel.Transform: translation and scaling act exactly on `real` vectors, so float rounding of the eight-matrix product is not modelled.
- Meshes.MeshModel.TranslateLocal: the centre is updated in `real` arithmetic, so `(c.y + y) + z` is not rounded twice as in float.
- `newModelCenter` is initialised as in the header and never written.
