/**
 * Textured drawing: the six-vertex quad laid out from a sized node, textures,
 * the texture renderer (an abstract GPU sink that records every call it
 * receives), and the `Sprite` drawable with its incremental re-upload
 * protocol.
 */
module Render {
  import opened Types
  import opened Node

  /** A vertex of a textured quad: a screen position and a texture coordinate. */
  datatype UvVertex2f = UvVertex2f(pos: Vector2f, uv: Vector2f)

  function ZeroVertex(): (v: UvVertex2f)
    ensures v.pos == Zero() && v.uv == Zero()
  {
    UvVertex2f(Zero(), Zero())
  }

  /** The fixed-size `[UvVertex2f; 6]`: two triangles forming a quad. */
  type UvVertexArray = s: seq<UvVertex2f> | |s| == 6
    witness [ZeroVertex(), ZeroVertex(), ZeroVertex(), ZeroVertex(), ZeroVertex(), ZeroVertex()]

  function ZeroArray(): (r: UvVertexArray)
    ensures forall i :: 0 <= i < 6 ==> r[i] == ZeroVertex()
  {
    [ZeroVertex(), ZeroVertex(), ZeroVertex(), ZeroVertex(), ZeroVertex(), ZeroVertex()]
  }

  /** The texture coordinates of the six quad vertices, in order. */
  const QuadUvs: seq<Vector2f> :=
    [Vector2(0.0, 1.0), Vector2(1.0, 1.0), Vector2(0.0, 0.0),
     Vector2(1.0, 0.0), Vector2(1.0, 1.0), Vector2(0.0, 0.0)]

  /**
   * The quad covering the rectangle at `pos` with extent `scaledSize`
   * (a sized node's `get_pos()` and `get_scaled_size()`).
   */
  function FromSizedNode(pos: Vector2f, scaledSize: Vector2f): (q: UvVertexArray)
    ensures forall i :: 0 <= i < 6 ==> q[i].uv == QuadUvs[i]
    ensures q[4] == q[1] && q[5] == q[2]
  {
    var w := scaledSize.x;
    var h := scaledSize.y;
    [UvVertex2f(Vector2(pos.x, pos.y), Vector2(0.0, 1.0)),
     UvVertex2f(Vector2(pos.x + w, pos.y), Vector2(1.0, 1.0)),
     UvVertex2f(Vector2(pos.x, pos.y + h), Vector2(0.0, 0.0)),
     UvVertex2f(Vector2(pos.x + w, pos.y + h), Vector2(1.0, 0.0)),
     UvVertex2f(Vector2(pos.x + w, pos.y), Vector2(1.0, 1.0)),
     UvVertex2f(Vector2(pos.x, pos.y + h), Vector2(0.0, 0.0))]
  }

  /**
   * Every quad vertex sits where its texture coordinate says, with the image's
   * v axis flipped against the screen's y axis: x = pos.x + u * w and
   * y = pos.y + (1 - v) * h.  The texture coordinates are the fixed list.
   */
  lemma QuadFollowsUvs(pos: Vector2f, scaledSize: Vector2f, i: nat)
    requires i < 6
    ensures FromSizedNode(pos, scaledSize)[i].uv == QuadUvs[i]
    ensures FromSizedNode(pos, scaledSize)[i].pos ==
      Vector2(pos.x + QuadUvs[i].x * scaledSize.x, pos.y + (1.0 - QuadUvs[i].y) * scaledSize.y)
  {
  }

  /** The quad's positions are exactly the four corners of the rectangle. */
  lemma QuadCorners(pos: Vector2f, scaledSize: Vector2f)
    ensures (set i | 0 <= i < 6 :: FromSizedNode(pos, scaledSize)[i].pos) ==
      {pos, Add(pos, Vector2(scaledSize.x, 0.0)), Add(pos, Vector2(0.0, scaledSize.y)), Add(pos, scaledSize)}
  {
    var q := FromSizedNode(pos, scaledSize);
    var corners := set i | 0 <= i < 6 :: q[i].pos;
    assert q[0].pos == pos;
    assert q[1].pos == Add(pos, Vector2(scaledSize.x, 0.0));
    assert q[2].pos == Add(pos, Vector2(0.0, scaledSize.y));
    assert q[3].pos == Add(pos, scaledSize);
    assert q[0].pos in corners && q[1].pos in corners && q[2].pos in corners && q[3].pos in corners;
  }

  /** Moving the node by `d` moves every quad vertex by `d` and keeps its texture coordinate. */
  lemma QuadTranslation(pos: Vector2f, d: Vector2f, scaledSize: Vector2f, i: nat)
    requires i < 6
    ensures FromSizedNode(Add(pos, d), scaledSize)[i].pos == Add(FromSizedNode(pos, scaledSize)[i].pos, d)
    ensures FromSizedNode(Add(pos, d), scaledSize)[i].uv == FromSizedNode(pos, scaledSize)[i].uv
  {
  }

  /** The rectangle at the origin of extent 10 x 20. */
  lemma QuadExample()
    ensures FromSizedNode(Zero(), Vector2(10.0, 20.0)) ==
      [UvVertex2f(Vector2(0.0, 0.0), Vector2(0.0, 1.0)),
       UvVertex2f(Vector2(10.0, 0.0), Vector2(1.0, 1.0)),
       UvVertex2f(Vector2(0.0, 20.0), Vector2(0.0, 0.0)),
       UvVertex2f(Vector2(10.0, 20.0), Vector2(1.0, 0.0)),
       UvVertex2f(Vector2(10.0, 0.0), Vector2(1.0, 1.0)),
       UvVertex2f(Vector2(0.0, 20.0), Vector2(0.0, 0.0))]
  {
  }

  /** An RGBA8 pixel buffer with its width and height. */
  datatype Texture = Texture(data: seq<u8>, dimensions: Vector2<u16>)

  function FromData(data: seq<u8>, width: u16, height: u16): (t: Texture)
    ensures t.data == data
    ensures At(t.dimensions, 0) == width && At(t.dimensions, 1) == height
  {
    Texture(data, Vector2(width, height))
  }

  /** The engine-wide hints every 2D draw reads: the global (projection) transform. */
  datatype RenderHints = RenderHints(globalTrans: Transform)

  /** One call received by a texture renderer. */
  datatype TextureCall =
    | UploadVertices(vertices: seq<UvVertex2f>)
    | UploadTexture(texture: Texture)
    | Draw(local: Transform, global: Transform)

  function VertexUploads(calls: seq<TextureCall>): nat
  {
    if calls == [] then 0 else (if calls[0].UploadVertices? then 1 else 0) + VertexUploads(calls[1..])
  }

  function TextureUploads(calls: seq<TextureCall>): nat
  {
    if calls == [] then 0 else (if calls[0].UploadTexture? then 1 else 0) + TextureUploads(calls[1..])
  }

  function Draws(calls: seq<TextureCall>): nat
  {
    if calls == [] then 0 else (if calls[0].Draw? then 1 else 0) + Draws(calls[1..])
  }

  /** The three counts add up over a concatenation of call logs. */
  lemma {:induction false} CountsAppend(a: seq<TextureCall>, b: seq<TextureCall>)
    ensures VertexUploads(a + b) == VertexUploads(a) + VertexUploads(b)
    ensures TextureUploads(a + b) == TextureUploads(a) + TextureUploads(b)
    ensures Draws(a + b) == Draws(a) + Draws(b)
  {
    if a == [] {
      assert a + b == b;
    } else {
      assert (a + b)[1..] == a[1..] + b;
      CountsAppend(a[1..], b);
    }
  }

  /** The calls one `Sprite` render issues: vertices if dirty, texture if pending, then one draw. */
  function SpriteFrame(dirty: bool, quad: UvVertexArray, pending: bool, texture: Texture,
                       trans: Transform, hints: RenderHints): seq<TextureCall>
  {
    (if dirty then [UploadVertices(quad)] else [])
      + (if pending then [UploadTexture(texture)] else [])
      + [Draw(trans, hints.globalTrans)]
  }

  /** A sprite frame uploads vertices iff dirty, the texture iff pending, and draws exactly once. */
  lemma SpriteFrameCounts(dirty: bool, quad: UvVertexArray, pending: bool, texture: Texture,
                          trans: Transform, hints: RenderHints)
    ensures VertexUploads(SpriteFrame(dirty, quad, pending, texture, trans, hints)) == if dirty then 1 else 0
    ensures TextureUploads(SpriteFrame(dirty, quad, pending, texture, trans, hints)) == if pending then 1 else 0
    ensures Draws(SpriteFrame(dirty, quad, pending, texture, trans, hints)) == 1
    ensures SpriteFrame(dirty, quad, pending, texture, trans, hints)[|SpriteFrame(dirty, quad, pending, texture, trans, hints)| - 1]
      == Draw(trans, hints.globalTrans)
  {
    var v: seq<TextureCall> := if dirty then [UploadVertices(quad)] else [];
    var t: seq<TextureCall> := if pending then [UploadTexture(texture)] else [];
    var d := [Draw(trans, hints.globalTrans)];
    CountsAppend(v, t);
    CountsAppend(v + t, d);
  }

  /**
   * The GPU side of a textured drawable: the bound vertex buffer and texture,
   * and the log of every call received.
   */
  class TextureRenderer {
    var vbuf: seq<UvVertex2f>
    var tex: Texture
    var calls: seq<TextureCall>

    constructor Create(texture: Texture, vertices: seq<UvVertex2f>)
      ensures vbuf == vertices && tex == texture && calls == []
    {
      vbuf := vertices;
      tex := texture;
      calls := [];
    }

    method UpdateVertices(vertices: seq<UvVertex2f>)
      modifies this
      ensures vbuf == vertices && tex == old(tex)
      ensures calls == old(calls) + [UploadVertices(vertices)]
    {
      vbuf := vertices;
      calls := calls + [UploadVertices(vertices)];
    }

    method UpdateTexture(texture: Texture)
      modifies this
      ensures tex == texture && vbuf == old(vbuf)
      ensures calls == old(calls) + [UploadTexture(texture)]
    {
      tex := texture;
      calls := calls + [UploadTexture(texture)];
    }

    /** One draw with the drawable's transform as local and the engine's as global. */
    method Render(transform: Transform, hints: RenderHints)
      modifies this
      ensures vbuf == old(vbuf) && tex == old(tex)
      ensures calls == old(calls) + [Draw(transform, hints.globalTrans)]
    {
      calls := calls + [Draw(transform, hints.globalTrans)];
    }
  }

  /** A textured rectangle. */
  class Sprite {
    const node: SizedNodeObject
    var texture: Option<Texture>
    var vertices: UvVertexArray
    var renderer: TextureRenderer?
    var updateTexture: bool
    var hasLoaded: bool

    /** The quad the node currently describes. */
    ghost function Quad(): UvVertexArray
      reads node
    {
      FromSizedNode(node.pos, node.GetScaledSize())
    }

    /**
     * The protocol's invariant: the sprite is loaded exactly when it has a
     * renderer; a loaded sprite has a texture; the GPU vertex buffer always
     * holds `vertices`, which is the current quad unless the node is dirty;
     * and the GPU texture is the sprite's texture unless a swap is pending.
     */
    ghost predicate Valid()
      reads this, node, renderer
    {
      && hasLoaded == (renderer != null)
      && (updateTexture ==> hasLoaded)
      && (renderer != null ==>
            && texture.Some?
            && renderer.vbuf == vertices
            && (!updateTexture ==> renderer.tex == texture.value)
            && (!node.valuesChanged ==> vertices == Quad()))
    }

    constructor (texture: Option<Texture>)
      ensures Valid() && fresh(node)
      ensures this.texture == texture && renderer == null && !hasLoaded && !updateTexture
      ensures vertices == ZeroArray()
      ensures node.pos == Zero() && node.trans == Identity() && !node.valuesChanged
      ensures node.size == Zero() && node.scale == Vector2(1.0, 1.0)
    {
      node := new SizedNodeObject();
      this.texture := texture;
      vertices := ZeroArray();
      renderer := null;
      updateTexture := false;
      hasLoaded := false;
    }

    /** Replaces the texture; only a loaded sprite marks the texture for re-upload. */
    method SetTexture(t: Texture)
      requires Valid()
      modifies this
      ensures Valid()
      ensures texture == Some(t)
      ensures updateTexture == (old(updateTexture) || hasLoaded)
      ensures renderer == old(renderer) && hasLoaded == old(hasLoaded) && vertices == old(vertices)
    {
      texture := Some(t);
      if hasLoaded {
        updateTexture := true;
      }
    }

    /**
     * Lays out the quad and creates the renderer with it and the texture (a
     * sprite without a texture is fatal).  The node's flag is left as it is.
     */
    method Load()
      requires Valid()
      requires texture.Some?
      modifies this
      ensures Valid() && hasLoaded && fresh(renderer)
      ensures vertices == Quad()
      ensures renderer.vbuf == vertices && renderer.tex == texture.value && renderer.calls == []
      ensures texture == old(texture) && updateTexture == old(updateTexture)
    {
      vertices := FromSizedNode(node.pos, node.GetScaledSize());
      renderer := new TextureRenderer.Create(texture.value, vertices);
      hasLoaded := true;
    }

    /**
     * Re-uploads the quad only if the node was dirty, the texture only if a
     * swap was pending, clears both, and issues one draw with the node's
     * transform.  Rendering an unloaded sprite is fatal.
     */
    method Render(hints: RenderHints)
      requires Valid()
      requires hasLoaded
      modifies this, node, renderer
      ensures Valid() && hasLoaded && renderer == old(renderer)
      ensures texture == old(texture) && !updateTexture
      ensures !node.valuesChanged
      ensures node.SameGeometry(old(node.pos), old(node.trans), old(node.size), old(node.scale))
      ensures vertices == Quad() && renderer.vbuf == vertices && renderer.tex == texture.value
      ensures renderer.calls == old(renderer.calls) +
        SpriteFrame(old(node.valuesChanged), Quad(), old(updateTexture), texture.value, node.trans, hints)
    {
      var changed := node.AcknowledgeValuesChanged();
      if changed {
        vertices := FromSizedNode(node.pos, node.GetScaledSize());
        renderer.UpdateVertices(vertices);
      }
      if updateTexture {
        renderer.UpdateTexture(texture.value);
        updateTexture := false;
      }
      renderer.Render(node.trans, hints);
    }

    /** Releases nothing: the source's `destroy` is empty. */
    method Destroy()
      requires Valid()
      ensures Valid()
      ensures unchanged(this, node)
    {
    }

    method SetPos(p: Vector2f)
      requires Valid()
      modifies node
      ensures Valid() && node.valuesChanged
      ensures node.SameGeometry(p, old(node.trans), old(node.size), old(node.scale))
    {
      node.SetPos(p);
    }

    method SetTrans(t: Transform)
      requires Valid()
      modifies node
      ensures Valid() && node.valuesChanged
      ensures node.SameGeometry(old(node.pos), t, old(node.size), old(node.scale))
    {
      node.SetTrans(t);
    }

    method SetSize(s: Vector2f)
      requires Valid()
      modifies node
      ensures Valid() && node.valuesChanged
      ensures node.SameGeometry(old(node.pos), old(node.trans), s, old(node.scale))
    {
      node.SetSize(s);
    }

    method SetScale(s: Vector2f)
      requires Valid()
      modifies node
      ensures Valid() && node.valuesChanged
      ensures node.SameGeometry(old(node.pos), old(node.trans), old(node.size), s)
    {
      node.SetScale(s);
    }
  }

  /**
   * A loaded 64 x 64 sprite rendered three times with nothing changed in
   * between.  `load` leaves the flag that `set_size` raised, so the first
   * render uploads the vertices once more; the two after it upload nothing.
   * No render uploads the texture, and each draws once.
   */
  method SteadyStateUploads(tex: Texture, hints: RenderHints)
    returns (firstVertexUploads: nat, laterVertexUploads: nat, textureUploads: nat, draws: nat)
    ensures firstVertexUploads == 1 && laterVertexUploads == 0
    ensures textureUploads == 0 && draws == 3
  {
    var s := new Sprite(Some(tex));
    s.SetSize(Vector2(64.0, 64.0));
    s.Load();
    var r := s.renderer;
    s.Render(hints);
    var c1 := r.calls;
    s.Render(hints);
    s.Render(hints);
    var f1 := SpriteFrame(true, s.Quad(), false, tex, s.node.trans, hints);
    var f0 := SpriteFrame(false, s.Quad(), false, tex, s.node.trans, hints);
    assert c1 == f1;
    assert r.calls == f1 + f0 + f0;
    assert r.calls[|c1|..] == f0 + f0;
    SpriteFrameCounts(true, s.Quad(), false, tex, s.node.trans, hints);
    SpriteFrameCounts(false, s.Quad(), false, tex, s.node.trans, hints);
    CountsAppend(f0, f0);
    CountsAppend(f1, f0 + f0);
    assert r.calls == f1 + (f0 + f0);
    firstVertexUploads := VertexUploads(c1);
    laterVertexUploads := VertexUploads(r.calls[|c1|..]);
    textureUploads, draws := TextureUploads(r.calls), Draws(r.calls);
  }

  /**
   * A loaded 64 x 64 sprite at the origin is rendered once, which uploads the
   * sized quad as in `SteadyStateUploads`.  It is then moved to (5,5) and
   * rendered again.  The render after the move uploads the vertices exactly
   * once, each vertex offset by (5,5) from the rectangle bound before, with
   * the same texture coordinates.
   */
  method MoveUploadsOnce(tex: Texture, hints: RenderHints)
    returns (before: seq<UvVertex2f>, after: seq<UvVertex2f>, vertexUploads: nat)
    ensures vertexUploads == 1
    ensures before == FromSizedNode(Zero(), Vector2(64.0, 64.0)) && |after| == 6
    ensures forall i :: 0 <= i < 6 ==>
      after[i].pos == Add(before[i].pos, Vector2(5.0, 5.0)) && after[i].uv == before[i].uv
  {
    var s := new Sprite(Some(tex));
    s.SetSize(Vector2(64.0, 64.0));
    s.Load();
    s.Render(hints);
    var r := s.renderer;
    before := r.vbuf;
    var size := s.node.GetScaledSize();
    assert size == Vector2(64.0, 64.0);
    var c0 := r.calls;
    var d := Vector2(5.0, 5.0);
    s.SetPos(d);
    var t := s.node.trans;
    s.Render(hints);
    after := r.vbuf;
    var f := SpriteFrame(true, FromSizedNode(d, size), false, tex, t, hints);
    assert r.calls == c0 + f;
    assert r.calls[|c0|..] == f;
    SpriteFrameCounts(true, FromSizedNode(d, size), false, tex, t, hints);
    vertexUploads := VertexUploads(r.calls[|c0|..]);
    forall i | 0 <= i < 6
      ensures after[i].pos == Add(before[i].pos, d) && after[i].uv == before[i].uv
    {
      assert Add(Zero(), d) == d;
      QuadTranslation(Zero(), d, size, i);
    }
  }

  /**
   * A texture set before `load` is the one `load` uploads and raises no
   * pending flag; one set afterwards is uploaded by the next render, once.
   */
  method TextureSwapUploadsOnce(t1: Texture, t2: Texture, t3: Texture, hints: RenderHints)
    returns (loaded: Texture, pendingBeforeLoad: bool, textureUploads: nat, bound: Texture)
    ensures loaded == t2 && !pendingBeforeLoad
    ensures textureUploads == 1 && bound == t3
  {
    var s := new Sprite(Some(t1));
    s.SetTexture(t2);
    pendingBeforeLoad := s.updateTexture;
    s.Load();
    var r := s.renderer;
    loaded := r.tex;
    s.SetTexture(t3);
    var t := s.node.trans;
    s.Render(hints);
    s.Render(hints);
    var f1 := SpriteFrame(false, s.Quad(), true, t3, t, hints);
    var f2 := SpriteFrame(false, s.Quad(), false, t3, t, hints);
    assert r.calls == f1 + f2;
    SpriteFrameCounts(false, s.Quad(), true, t3, t, hints);
    SpriteFrameCounts(false, s.Quad(), false, t3, t, hints);
    CountsAppend(f1, f2);
    textureUploads := TextureUploads(r.calls);
    bound := r.tex;
  }
}
