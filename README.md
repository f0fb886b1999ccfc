# SpectraZone viewer core in Dafny

SpectraZone is a browser page that turns an uploaded photo into a 3D object. The photo becomes the texture of one of five shapes: a flat plane, a curved panel, a cube, a sphere or a torus. On the plane, each vertex is pushed towards or away from the viewer according to the brightness of the photo at that point. This is the "parallax" depth effect.

This project models three parts of the page's script:

- **The depth effect (`applyParallax`).** Several modules cover it:
  - `Crop` computes the centred crop rectangle that matches the plane's aspect ratio.
  - `Depth` computes the Rec. 601 luma of an 8-bit RGB sample (the weights of ITU-R BT.601, section 2.5.1), the radial vignette mask over normalised coordinates and the depth `z`.
  - `Displace` specifies the whole pass as a function `Displaced` on the flat, stride-3 vertex position buffer. It then proves the in-place double loop (`WriteDepths` / `WriteRow`, over an `array<real>`) against that function.
- **The shape and size rules of `buildMainMesh` (`Shapes`).** These are:
  - the panel width clamp;
  - the plane's segment counts;
  - the guarded radius of the curved panel;
  - the cube's six materials;
  - the sphere and torus proportions.
- **The lifecycle of the resource slots (`Viewer`).** This is a class over the uploaded image, the main mesh, the image texture and the scene's membership set. It has ghost bookkeeping of which meshes and textures were built and disposed. `Valid()` is its invariant: at most one built mesh is in the scene, that mesh is the main mesh, and every other mesh ever built has been disposed.

All arithmetic uses exact `real`. `Math.PI` is the constant 3.141592653589793. The resampled canvas bytes (the output of `getImageData`) are an input sequence. The slider values are real inputs. Whether making a texture fails is a boolean input.

## Model

| member | source | states |
|---|---|---|
| Depth.Luma | script.js:369-372 | for byte channels the luma lies in [0, 1]; it is 1 exactly for pure white and 0 exactly for pure black |
| Depth.NormCoord | script.js:373-374 | a grid index in [0, n) maps into [-1, 1], with -1 exactly at the first index and 1 exactly at the last |
| Depth.Mask | script.js:375 | the vignette mask lies in [0, 1], is 1 at the centre, and is 0 exactly when nx² + ny² ≥ 1 |
| Depth.DepthOf | script.js:376 | the depth is 0 exactly when the luma is mid-grey, the intensity is 0 or the mask is 0; with positive intensity and mask it is positive exactly for samples brighter than mid-grey |
| Depth.DepthBounded | script.js:372-376 | for luma and mask in [0, 1], the depth is at most 0.7·\|intensity\| in absolute value |
| Depth.DepthVanishesOutsideCircle | script.js:375-376 | on and beyond the unit circle the depth is 0 |
| Depth.WhiteAndBlackDepth | script.js:372-376 | a pure white sample gives z = 0.7·intensity·mask; a pure black one gives z = -0.7·intensity·mask |
| Crop.CropRect | script.js:347-361 | the crop lies inside the image, is non-empty, is centred on both axes and has the plane's aspect ratio; only the relatively longer axis is cropped and the other keeps the full extent |
| Shapes.ParseShape | script.js:255-302 | a recognised selector value maps back to exactly that value; any other value builds nothing |
| Shapes.ParseShapeName | script.js:255-302 | every shape's selector value is recognised as that shape |
| Shapes.PanelWidth | script.js:243-245 | the width always lies in [2.0, 6.2]; it equals 3.2·aspect when that is in range, and is 2.0 or 6.2 below or above the range |
| Shapes.PlaneGridFor | script.js:256-258 | the plane has ceil(40·w) width segments, between 80 and 248, and 128 height segments |
| Shapes.PlaneGridDivisors | script.js:256-257 | every plane built from an image has at least 81 columns and exactly 129 rows, so the normalisation divisors are positive |
| Shapes.CurvedRadius | script.js:265-266 | the radius is positive and at most w/0.0001 for every curve value; it is w/0.0001 when the angle is guarded; otherwise radius·θ = w |
| Shapes.SolidFor | script.js:264-301 | curved: an open wall of the guarded radius, of height 3.2, spanning θ and centred on its bisector. cube: a box of side 3.2. sphere: diameter 5.248. torus: outer radius 2.64 and tube 0.4 |
| Shapes.BaseMaterial | script.js:247-253 | the material every shape is built with maps the image texture, keeps the default white colour and is drawn on both sides |
| Shapes.CubeMaterials | script.js:281-287 | six materials on the same texture, each a clone of the base material; only face 4 keeps the base colour, and the others are 0.9 of it |
| Displace.VertexOfCell | script.js:366-377 | for every grid cell (x, y), the vertex index y·cols+x is in range, and x and y are recovered from it |
| Displace.DisplacedFrame | script.js:377-378 | the pass leaves the x and y components of every vertex unchanged and keeps the buffer length |
| Displace.DisplacedAtCell | script.js:366-378 | the z slot (y·cols+x)·3+2 of cell (x, y) holds the depth computed from the sample at byte (y·cols+x)·4, with the mask at that cell's normalised coordinates; its x and y slots are unchanged |
| Displace.DisplacedBounded | script.js:366-378 | for byte samples, every z slot is at most 0.7·\|intensity\| in absolute value |
| Displace.DisplacedCornersFlat | script.js:373-378 | the four corner vertices get z = 0 |
| Displace.DisplacedRerun | script.js:366-380 | re-running the pass with a new intensity gives the same buffer as one pass with that intensity, because the previous depths are all overwritten |
| Displace.WriteDepths | script.js:366-380 | the in-place double loop leaves the buffer equal to Displaced of its old contents |
| Displace.WriteRow | script.js:367-379 | if the buffer already holds the displaced values for every row before y, and its old values after them, then one pass over the columns of row y extends this through row y |
| Viewer.FlatPositions | script.js:258 | the fresh plane buffer has three slots per vertex, and every z slot is 0 |
| Viewer.Viewer.constructor | script.js:34-37 | the viewer starts with no image, no main mesh, no texture, no renderer and an empty scene, and the invariants hold |
| Viewer.Viewer.LoadImage | script.js:95-96 | the decoded image fills the image slot; no other slot changes |
| Viewer.Viewer.DisposeMainMesh | script.js:204-216 | the main mesh is disposed and leaves the scene, and its slot is emptied; nothing else is disposed |
| Viewer.Viewer.RemakeTexture | script.js:232-240 | the old texture is disposed; a new texture that was never made before fills the slot, or the slot stays empty when making it fails |
| Viewer.Viewer.AttachMesh | script.js:259-262 | a newly built mesh, with an id never built before, becomes the main mesh with the given geometry and materials and is the only mesh in the scene; nothing is disposed |
| Viewer.Viewer.AttachShape | script.js:247-302 | the mesh for the shape is built on the texture: its geometry, its materials, and for the plane a buffer equal to the displaced flat grid. It becomes the only mesh in the scene and was never built before |
| Viewer.Viewer.ApplyParallax | script.js:328-383 | no change without a mesh, on a non-plane shape, without an image (the browser throws there) or with a remote image; otherwise the crop is that of CropRect and the buffer becomes Displaced of its old contents |
| Viewer.Viewer.BuildMainMesh | script.js:218-302 | with no image or a remote image, nothing changes (not even the renderer) and the matching notice is shown. Otherwise exactly the previous mesh and texture are disposed, the previous mesh leaves the scene, and the only mesh and texture made are the new main ones. A failed texture leaves the empty state, and an unknown shape builds nothing. A known shape becomes the one new mesh in the scene, as Shaped describes; a plane's buffer is newly allocated. Valid() is kept throughout, and so is the absence of leaked textures |
| Viewer.Viewer.GoBackToUpload | script.js:418-433 | the main mesh is disposed and leaves the scene, and the renderer is dropped; the image and the texture stay, and no mesh or texture is made |
| Viewer.Viewer.ClearAsWritten | script.js:407-409 | the image and texture slots are emptied, and a texture that was live is left leaked |
| Viewer.Viewer.Clear | script.js:407-409 | corrected clear: the texture is disposed before its slot is emptied, so no texture leaks |
| Viewer.ClearLeakScenario | script.js:407-413 | load, build a sphere, go back (which hides the clear button), load another image (which shows it again), clear: the texture made by the build ends up leaked, with no mesh left that maps it |

## Left out

- DOM wiring is not modelled: buttons, drag and drop, the preview, keyboard, mouse, touch and zoom handlers, and error banners. A banner appears only as the returned notice.
- File reading and image decoding are asynchronous browser I/O. A decoded image is an input to `LoadImage`, which requires a positive width and height. An image with a zero side, whose aspect would be Infinity or NaN in the browser, is not modelled.
- Three.js internals are not modelled: the renderer, camera, lights, floor, controls, `computeVertexNormals` and the `dispose` calls. Geometries, materials and textures are opaque ids with a disposed flag.
- The try/catch in `disposeMesh`, and around `texture.dispose`, is not modelled: disposal of an id cannot fail.
- The scale-in animation, the camera reset after a build, the rotate and tilt animations, the render loop and PNG export are time-driven presentation or browser I/O.
- Canvas resampling (`drawImage` / `getImageData`) is a foreign call. Its bytes are the `data` input, of length columns·rows·4. `ApplyParallax` returns the crop rectangle it would draw from.
- The intensity slider's `parseFloat(...) || 0` and the curve slider's bare `parseFloat(...)` are not modelled: intensity and curve are reals given by the caller, so a NaN curve cannot arise.
- IEEE double rounding is not modelled: all arithmetic is exact. Rounding can change an integer here: in doubles 3.2 × 1.5 × 40 is 192.00000000000003, so `Math.ceil(w * 40)` gives 193 width segments for a 3:2 image where Shapes.PlaneGridFor gives 192 (and 97 where it gives 96 for 3:4). The browser's grid, and with it the number of canvas samples, can therefore be one column wider than the model's.
- Depth.Mask: states that the mask is 1 at the centre but not the converse (that the centre is the only point where it is 1), which needs nx² + ny² = 0 only at the origin, a nonlinear fact the solver does not settle.
- Viewer.Viewer.AttachShape: the base material that the cube branch creates but does not use is not modelled as a separate object.
- Displace.WriteDepths: the inner loop is the separate method `WriteRow`. The order of the writes is the same as in the source.

## Findings

| source | as written | input that shows it | evidently intended | confidence | as-written member | corrected member |
|---|---|---|---|---|---|---|
| script.js:407-413 | the clear handler empties `imageTexture` without disposing the texture | load a local image, build any shape, go back to upload (the clear button is hidden), load another image (the button is shown again), press clear: the texture made by the build is neither disposed nor referenced | dispose the texture before dropping it, as the build does at script.js:233-238 | medium, not executed | Viewer.Viewer.ClearAsWritten | Viewer.Viewer.Clear |
