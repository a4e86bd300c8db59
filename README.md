# FlatEngine drawables: a Dafny model

FlatEngine is a small Rust rendering engine.  Every drawable (sprite, text,
triangle, mesh entity) owns a node holding its position and transform, and
an optional GPU renderer that exists only after `load`.  Each `render` call
decides from a few dirty flags whether to re-upload the vertices or texture.
Then it issues exactly one draw.  This project models that state and proves
when uploads happen:

- **Types** (`types.dfy`): vectors, colours, 4x4 matrices and the shader transform.
- **Node** (`node.dfy`): `NodeObject` and `SizedNodeObject`.  Every setter raises
  `valuesChanged`, and `AcknowledgeValuesChanged` reads and clears it.
- **Render** (`render.dfy`): the six-vertex quad and textures.  Also the texture
  renderer and the `Sprite` drawable.
- **Text** (`text.dfy`): textures generated from text, with their 40-pixel padding,
  `adjust_size`, and the `Text` drawable.
- **Geometry** (`geometry.dfy`): the geometry renderer and `Triangle`.
- **Spatial** (`spatial.dfy`): meshes, the mesh renderer and `Entity`.

Modelling choices:

- **Numbers.** Floats are `real`.  Texture dimensions are `u16`.  In
  `Texture::from_text` (src/text/mod.rs:27-63):
  - the width's `i32`-to-`u32` cast, its `+ 40` and the final cast to `u16` are
    written out as one reduction modulo 2^16;
  - the height's float-to-`u32` cast saturates (`Text.SatU32`), and only the
    padded height is then reduced modulo 2^16.
- **GPU.** Each GPU renderer is a class that records every call it receives
  in a log.  It also keeps what is currently bound:
  - `TextureRenderer` logs `TextureCall`s (`UploadVertices`, `UploadTexture`,
    `Draw`) in `calls`, and binds vertices and a texture;
  - `GeometryRenderer` logs one `GeometryDraw` per draw in `draws`, and binds
    vertices;
  - `MeshRenderer` logs `MeshCall`s (`MeshUploadVertices`,
    `MeshUploadTexture`, `MeshDraw`) in `calls`, and binds vertices and a
    texture.  So an `ensures` on a drawable's
  `Render` pins down exactly which uploads happen, in which order, and which
  draw follows.
- **Drawables.** `Sprite` and `Text` each have a `Valid()` invariant, which is
  the engine's re-upload protocol.  Such a drawable is loaded exactly when it
  has a renderer.  While it is loaded, the GPU holds the current quad and
  texture unless a pending flag says otherwise.  `Triangle`'s `Valid()` only
  says that a loaded triangle's buffer holds its three vertices.  `Entity` has
  no invariant: it may be rendered unloaded, which does nothing.
- **Panics.** A panic in the source is a precondition here: rendering a
  Sprite, Text or Triangle before `load`, loading a sprite without a texture,
  `at` past index 1, and text the font cannot lay out.
- **Getters.** `get_pos`, `get_trans`, `get_size` and `get_scale` just return a
  public field, so the model reads the field (`node.pos`).  The setters'
  contracts state the round trip.  `Vector2::new` is the datatype constructor
  `Vector2`.
- **Engine.** The engine's `load`/`render`/`destroy` only forward to the
  drawable (src/core/mod.rs:109-125), so the model calls the drawable's methods
  directly.  The engine's global transform is passed as a `RenderHints` value.
  The camera is passed as a `Camera` value.
- **Font.** The font is a function value taking a string, size and colour to a
  `GlyphLayout`: the glyphs' horizontal extent, the vertical metrics and the
  pixels drawn.  `None` stands for the `unwrap` failures in
  `Texture::from_text` (src/text/mod.rs:29-36).  Empty text always has such a
  failure, because it lays out to no glyph.  So `Text.Renderable` and
  `Text.SpriteFromText` require non-empty text whatever the font returns.

Behaviour of the code worth knowing, which the model follows:

- `set_size` stores the size exactly as given (src/node/mod.rs:129-132).  No
  scale is derived from it, and a zero size is accepted.
- The 2D nodes keep `pos` and `trans` as separate fields (src/node/mod.rs:10-16).
  `set_pos` does not change the transform, and the transform does not change
  the position.
- `Text::set_color` raises `update_text` but does not regenerate the texture
  (src/text/mod.rs:121-129).  So the next render uploads the texture made with
  the old colour.  `Text.ColorChangeUploadsOldTexture` states this.
- `Color::new` takes its arguments as (r, b, g, a) (src/types/mod.rs:125-127),
  and `to_raw_color` emits [r, b, g, a] (src/types/mod.rs:149-151).  So
  `Color::new` round-trips through `to_raw_color`.  But the `green()` and
  `blue()` presets (src/types/mod.rs:137-142) come out with their middle
  channels swapped.
- `Sprite`'s `load` builds the renderer from the current quad but leaves the
  node's flag as it is (src/render/mod.rs:208-216).  `render` re-uploads the
  vertices whenever that flag is set (src/render/mod.rs:224-230).
  `Sprite::new` starts at size (0,0) (src/render/mod.rs:183-192).  So every
  visible sprite, whose size is set before `load`, uploads its vertices once
  more at its first render.  Only the renders after that upload nothing.
  `Render.SteadyStateUploads` states this.
- The triangle never reads its node's flag, and it draws with `node.trans`
  only (src/geometry/mod.rs:118-127).  So `set_pos` has no effect on what is
  drawn: a moved triangle is drawn exactly where it was.  Only `set_trans`
  changes the transform sent with the draw.  `Geometry.MovedTriangleKeepsVertices`
  states this.

## Model

| member | source | states |
|---|---|---|
| Types.At | src/types/mod.rs:34-45 | index 0 gives x and index 1 gives y; any other index is excluded (fatal in the source) |
| Types.Add | src/types/mod.rs:49-57 | component i of the sum is the sum of the components i |
| Types.Sub | src/types/mod.rs:59-67 | component i of the difference is the difference of the components i |
| Types.Mul | src/types/mod.rs:69-77 | component i of the product is the product of the components i |
| Types.Div | src/types/mod.rs:79-87 | component i of the quotient is the quotient of the components i, for a divisor with no zero component |
| Types.ArithmeticInverses | src/types/mod.rs:49-87 | subtraction undoes addition, zero is neutral, division by a non-zero vector undoes multiplication |
| Types.Zero | src/types/mod.rs:95-99 | `Vector2f::zero` has both components 0 |
| Types.ZeroI | src/types/mod.rs:101-105 | `Vector2i::zero` has both components 0 |
| Types.ZeroU | src/types/mod.rs:107-111 | `Vector2u::zero` has both components 0 |
| Types.NewColor | src/types/mod.rs:125-127 | the arguments are taken as red, blue, green, alpha |
| Types.ToRawColor | src/types/mod.rs:149-151 | the raw colour is [r, b, g, a] |
| Types.NewColorRawRoundTrip | src/types/mod.rs:125-127 | `Color::new(x,y,z,w).to_raw_color()` is [x,y,z,w] |
| Types.Black | src/types/mod.rs:128-130 | the shader receives [0, 0, 0, 1] |
| Types.White | src/types/mod.rs:131-133 | the shader receives [1, 1, 1, 1] |
| Types.Red | src/types/mod.rs:134-136 | the shader receives [1, 0, 0, 1] |
| Types.Green | src/types/mod.rs:137-139 | the shader receives [0, 0, 1, 1]: green lands in the third slot |
| Types.Blue | src/types/mod.rs:140-142 | the shader receives [0, 1, 0, 1]: blue lands in the second slot |
| Types.ZeroColor | src/types/mod.rs:143-145 | the shader receives [0, 0, 0, 0] |
| Types.Invert | src/types/mod.rs:146-148 | each of r, g, b of the result and the input sum to 1; alpha is 1 |
| Types.InvertInvolution | src/types/mod.rs:146-148 | inverting twice restores r, g, b (and the whole colour when it is opaque) |
| Types.Identity | src/types/mod.rs:164-173 | 1 on the diagonal, 0 elsewhere |
| Types.IdentityMatrix | src/types/mod.rs:175-186 | the identity matrix in column form: component i of column j is 1 iff i = j |
| Types.FromMatrix | src/types/mod.rs:175-186 | cell (i, j) is component i of column j: a transpose |
| Types.FromIdentityMatrix | src/types/mod.rs:164-186 | converting the identity matrix gives the identity transform |
| Node.NodeObject.constructor | src/node/mod.rs:20-24 | position (0,0), identity transform, flag clear |
| Node.NodeObject.AcknowledgeValuesChanged | src/node/mod.rs:26-34 | returns the old flag, leaves it clear, position and transform unchanged |
| Node.NodeObject.SetPos | src/node/mod.rs:40-46 | position becomes p, flag raised, transform unchanged |
| Node.NodeObject.SetTrans | src/node/mod.rs:48-54 | transform becomes t, flag raised, position unchanged |
| Node.SizedNodeObject.constructor | src/node/mod.rs:83-87 | size (0,0), scale (1,1), position (0,0), identity transform, clean |
| Node.SizedNodeObject.FromSize | src/node/mod.rs:89-93 | size s, scale (1,1), position (0,0), identity transform, clean |
| Node.SizedNodeObject.AcknowledgeValuesChanged | src/node/mod.rs:95-103 | returns the old flag, leaves it clear, geometry unchanged |
| Node.SizedNodeObject.SetPos | src/node/mod.rs:109-115 | position becomes p, flag raised, no other field changes |
| Node.SizedNodeObject.SetTrans | src/node/mod.rs:117-123 | transform becomes t, flag raised, no other field changes |
| Node.SizedNodeObject.SetSize | src/node/mod.rs:129-135 | size becomes exactly s, flag raised, no other field changes |
| Node.SizedNodeObject.SetScale | src/node/mod.rs:137-143 | scale becomes exactly s, flag raised, no other field changes |
| Node.SizedNodeObject.GetScaledSize | src/node/mod.rs:145-147 | each component is size times scale; reads without touching the flag |
| Node.AcknowledgeTwice | src/node/mod.rs:95-103 | after a setter, two acknowledgements in a row return true then false |
| Node.FreshNodeIsClean | src/node/mod.rs:20-34 | a new node's first acknowledgement returns false |
| Render.ZeroVertex | src/render/mod.rs:35-39 | position (0,0) and texture coordinate (0,0) |
| Render.ZeroArray | src/render/mod.rs:57-61 | all six vertices are the zero vertex |
| Render.QuadFollowsUvs | src/render/mod.rs:63-76 | UVs are (0,1),(1,1),(0,0),(1,0),(1,1),(0,0); each vertex is at pos + (u*w, (1-v)*h) |
| Render.FromSizedNode | src/render/mod.rs:63-76 | vertex i has texture coordinate `QuadUvs[i]`; vertex 4 equals vertex 1 and vertex 5 equals vertex 2; positions are stated by `Render.QuadFollowsUvs` and `Render.QuadCorners` |
| Render.QuadCorners | src/render/mod.rs:63-76 | the six positions are exactly p, p+(w,0), p+(0,h), p+(w,h) |
| Render.QuadTranslation | src/render/mod.rs:63-76 | moving the node by d moves every vertex by d and keeps its UV |
| Render.QuadExample | src/render/mod.rs:63-76 | the layout of the 10 x 20 rectangle at the origin |
| Render.FromData | src/render/mod.rs:89-93 | keeps the byte sequence and the width and height |
| Render.SpriteFrameCounts | src/render/mod.rs:224-240 | a sprite render uploads vertices iff dirty, the texture iff pending, and ends with one draw |
| Render.TextureRenderer.Create | src/render/mod.rs:125-148 | the new renderer binds the given vertices and texture and has received no call |
| Render.TextureRenderer.UpdateVertices | src/render/mod.rs:157-161 | rebinds the vertices, keeps the texture, logs one vertex upload |
| Render.TextureRenderer.UpdateTexture | src/render/mod.rs:163-166 | rebinds the texture, keeps the vertices, logs one texture upload |
| Render.TextureRenderer.Render | src/render/mod.rs:151-155 | logs one draw with the given local and the engine's global transform; bindings unchanged |
| Render.Sprite.constructor | src/render/mod.rs:183-192 | unloaded: no renderer, not loaded, no pending swap, zero vertices, fresh default node |
| Render.Sprite.SetTexture | src/render/mod.rs:194-202 | always replaces the texture; raises the pending flag only when loaded |
| Render.Sprite.Load | src/render/mod.rs:208-216 | needs a texture; vertices become the current quad; a fresh renderer gets them and the texture; flag kept |
| Render.Sprite.Render | src/render/mod.rs:218-247 | needs `load`; logs the quad upload iff the node was dirty, the texture iff pending, then one draw with the node's transform; clears both flags |
| Render.Sprite.Destroy | src/render/mod.rs:249-251 | changes nothing |
| Render.Sprite.SetPos | src/render/mod.rs:257-259 | delegates: position becomes p and the node is dirty; invariant kept |
| Render.Sprite.SetTrans | src/render/mod.rs:264-266 | delegates: transform becomes t and the node is dirty |
| Render.Sprite.SetSize | src/render/mod.rs:275-277 | delegates: size becomes s and the node is dirty |
| Render.Sprite.SetScale | src/render/mod.rs:282-284 | delegates: scale becomes s and the node is dirty |
| Render.SteadyStateUploads | src/render/mod.rs:208-247 | a 64 x 64 sprite loaded and rendered three times with no change: the first render uploads the vertices once (the flag `set_size` raised survives `load`), the other two none; no texture upload; three draws |
| Render.MoveUploadsOnce | src/render/mod.rs:224-230 | moving a loaded 64 x 64 sprite by (5,5) makes the next render upload the vertices exactly once, every vertex of the rectangle offset by (5,5) |
| Render.TextureSwapUploadsOnce | src/render/mod.rs:194-240 | a texture set before load is the one loaded, with no pending flag; one set after load is uploaded once |
| Text.Ceil | src/text/mod.rs:27 | the least integer not below its argument |
| Text.SatU32 | src/text/mod.rs:27 | Rust's saturating cast to `u32` |
| Text.GlyphsHeight | src/text/mod.rs:27 | within `u32` range, the least whole number of pixels covering ascent minus descent; 0 for a non-positive span; saturates at 2^32 - 1 |
| Text.FromText | src/text/mod.rs:27-63 | keeps the drawn pixels; each dimension agrees with the padded extent (width + 40, `GlyphsHeight` + 40) modulo 2^16 |
| Text.FromTextPadding | src/text/mod.rs:27-63 | within `u16` range the texture is (glyph extent width + 40, ascent - descent rounded up + 40) and keeps the drawn pixels |
| Text.AdjustSize | src/text/mod.rs:145-151 | height equals the size; width over height equals the texture's width over height |
| Text.AdjustSizeExample | src/text/mod.rs:145-151 | a 200 x 100 texture at size 40 gives (80, 40) |
| Text.SpriteFromText | src/text/mod.rs:70-81 | an unloaded sprite holding the texture of the text, with a fresh node: position (0,0), identity transform, size (0,0), scale (1,1), clean |
| Text.TextFrameCounts | src/text/mod.rs:213-233 | a text render uploads vertices once per reason (dirty node, changed text), the texture iff the text changed, and ends with one draw |
| Text.Text.constructor | src/text/mod.rs:102-119 | node sized by `adjust_size` of the generated texture, scale (1,1), clean; not loaded, no pending update |
| Text.Text.SetColor | src/text/mod.rs:121-129 | colour replaced; pending flag raised only when loaded; the texture is not regenerated |
| Text.Text.SetText | src/text/mod.rs:131-143 | text replaced, texture regenerated, node size assigned without raising the node's flag, pending flag raised only when loaded |
| Text.Text.Load | src/text/mod.rs:197-205 | vertices become the current quad; a fresh renderer gets them and the texture |
| Text.Text.Render | src/text/mod.rs:207-240 | needs `load`; logs the quad if dirty, then texture and quad again if the text changed, then one draw; clears both flags |
| Text.Text.Destroy | src/text/mod.rs:242-244 | changes nothing |
| Text.Text.SetPos | src/text/mod.rs:157-159 | delegates: position becomes p, node dirty |
| Text.Text.SetTrans | src/text/mod.rs:164-166 | delegates: transform becomes t, node dirty |
| Text.Text.SetSize | src/text/mod.rs:175-177 | does nothing: size and flag unchanged |
| Text.Text.SetScale | src/text/mod.rs:182-184 | delegates: scale becomes s, node dirty |
| Text.MoveAndRetextUploads | src/text/mod.rs:207-233 | moving and retexting a loaded text: two vertex uploads, one texture upload (the new text's), one draw |
| Text.ColorChangeUploadsOldTexture | src/text/mod.rs:121-129 | after `set_color` the next render uploads the texture generated with the old colour |
| Text.RetextBeforeLoad | src/text/mod.rs:131-143 | retexting before load raises no flag; load uses the new texture and size; the first render uploads nothing |
| Geometry.TriangleVertices | src/geometry/mod.rs:98-102 | three vertices, each carrying the colour's raw form |
| Geometry.TriangleShape | src/geometry/mod.rs:98-102 | the corners are exactly (-0.5,-0.5), (0.5,-0.5), (0,0.5) for every colour; hence a horizontal base centred on the origin, the apex on x = 0 above it, all inside the unit square |
| Geometry.GeometryRenderer.FromVertices | src/geometry/mod.rs:51-71 | binds the given vertices, no draw yet |
| Geometry.GeometryRenderer.Render | src/geometry/mod.rs:74-78 | logs one draw with the local and global transforms; vertices unchanged |
| Geometry.Triangle.constructor | src/geometry/mod.rs:94-108 | fixed vertices in the given colour, fresh default node, no renderer |
| Geometry.Triangle.Load | src/geometry/mod.rs:114-116 | a fresh renderer bound to the triangle's vertices |
| Geometry.Triangle.Render | src/geometry/mod.rs:118-127 | needs `load`; one draw with the node's transform; node (and its flag) untouched; no vertex upload |
| Geometry.Triangle.Destroy | src/geometry/mod.rs:129-131 | changes nothing |
| Geometry.Triangle.SetPos | src/geometry/mod.rs:137-139 | delegates: position becomes p, node dirty |
| Geometry.Triangle.SetTrans | src/geometry/mod.rs:144-146 | delegates: transform becomes t, node dirty |
| Geometry.MovedTriangleKeepsVertices | src/geometry/mod.rs:118-127 | after `set_pos` and a render: still dirty, the load-time vertices still bound, and the one draw carries the unchanged identity transform |
| Spatial.NewMesh | src/spatial/mod.rs:97-101 | no vertices |
| Spatial.FromVertices | src/spatial/mod.rs:103-113 | same length as the input; vertex i has position vs[i] and UV (0,0) |
| Spatial.NewNodeObject3D | src/spatial/mod.rs:128-132 | the 3D node starts with the identity transform |
| Spatial.MeshRenderer.Create | src/spatial/mod.rs:44-67 | binds the given vertices and texture, no call yet |
| Spatial.MeshRenderer.UpdateVertices | src/spatial/mod.rs:75-79 | rebinds the vertices and logs one vertex upload |
| Spatial.MeshRenderer.UpdateTexture | src/spatial/mod.rs:81-84 | rebinds the texture and logs one texture upload |
| Spatial.MeshRenderer.Render | src/spatial/mod.rs:69-73 | logs one draw with model, view and projection |
| Spatial.Entity.constructor | src/spatial/mod.rs:128-132 | identity node, empty mesh, no texture, no renderer |
| Spatial.Entity.FromMesh | src/spatial/mod.rs:134-138 | identity node, the given mesh and texture, no renderer |
| Spatial.Entity.Load | src/spatial/mod.rs:144-150 | always installs a renderer with the mesh and the entity's texture, or the default texture without one |
| Spatial.Entity.Render | src/spatial/mod.rs:152-156 | before load nothing happens; after load exactly one draw with the node's transform and the camera |
| Spatial.Entity.Destroy | src/spatial/mod.rs:158-160 | changes nothing |
| Spatial.RenderBeforeLoadIsNoOp | src/spatial/mod.rs:152-156 | a render before load neither fails nor draws; one after load draws once |

## Left out

- GPU work is abstracted as call logs.  This covers pipeline and shader compilation, vertex, constant and sampler buffer creation, encoder `update_buffer`/`draw`/`flush`, `get_shader_texture`, the `gfx_defines!` blocks, and the renderers' `new` wrappers around GPU handles.
- Window, context and event handling are not modelled, nor is the main loop (`FlatEngine::init`, `clear`, `swap_buffers`, `hande_event`, src/main.rs).  They are I/O.
- `Texture::load_from_path` is not modelled: it is image decoding by an external library.
- `UvVertex2f::print` is not modelled: it is console output.
- Glyph layout, rasterisation and the float-to-byte colour conversion in `Texture::from_text` are not modelled.  They belong to the font collaborator, which is a function parameter here.
- Float precision is not modelled: the f64-to-f32 casts in the quad layout and f32 rounding are ignored.
- `cgmath`'s `ortho` is not modelled; `from_matrix` works over an abstract column matrix.
- Arithmetic on `Vector2i`/`Vector2u` is not modelled (only their `zero`).  The core only does arithmetic on f64 vectors.
- `NodeObject3D`, `Vector3f`, `Texture::new`, `Matrix4f::get_data` and `engine.renderer.camera` are not defined in the repository.  The stand-ins are an identity transform, a `Vector3` of three reals, an empty 0 x 0 `DefaultTexture` and a `Camera` parameter.
- The `Node3D` impl of `Entity` is not modelled, because it only hands out the undefined `NodeObject3D`.
- `destroy` releases nothing here, because in the source it is empty for every drawable.
- Text.FromText: the extent subtraction is on `i32` and the `+ 40` on `u32`.  The model computes both on unbounded integers and reduces modulo 2^16.  The debug-build overflow panics are not modelled.
- Text.AdjustSize: requires a non-zero texture height.  The source divides by it and gets an infinite or NaN float.
- Text.Text.constructor: requires `Renderable`, meaning the text is non-empty, the font lays it out and the texture height is non-zero.  The source panics on the first two conditions and divides by zero on the third.
- Text.Text.SetText: requires `Renderable` for the new text, for the same reasons as `Text.Text.constructor`.
- Types.Div: division by a vector with a zero component is excluded, because f64 would give an infinity or NaN.
