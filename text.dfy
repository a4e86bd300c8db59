/**
 * Text drawing: a texture rasterised from a string by the font collaborator,
 * padded by 20 pixels on each side, and the `Text` drawable, whose
 * `updateText` flag forces a texture and a vertex re-upload.
 */
module Text {
  import opened Types
  import opened Node
  import opened Render

  /**
   * What the font collaborator yields for a string at a size and colour: the
   * left edge of the first glyph's pixel box, the right edge of the last
   * one's, the font's vertical metrics, and the RGBA pixels it drew.
   */
  datatype GlyphLayout = GlyphLayout(minX: int, maxX: int, ascent: real, descent: real, pixels: seq<u8>)

  /**
   * A font: `None` when the string lays out to no glyph, or its first or last
   * glyph has no pixel box (both are `unwrap` failures, fatal in the source).
   */
  type Font = (seq<char>, real, Color) -> Option<GlyphLayout>

  /** The padding added to the glyphs' extent on each axis (20 pixels per side). */
  const Padding: int := 40

  /** The smallest integer not below `r` (`f32::ceil`). */
  function Ceil(r: real): (c: int)
    ensures r <= c as real < r + 1.0
  {
    if r == r.Floor as real then r.Floor else r.Floor + 1
  }

  /** Rust's saturating float-to-`u32` cast. */
  function SatU32(i: int): (r: u32)
    ensures 0 <= i < 0x1_0000_0000 ==> r as int == i
    ensures i < 0 ==> r == 0
    ensures i >= 0x1_0000_0000 ==> r as int == 0xFFFF_FFFF
  {
    if i < 0 then 0 else if i >= 0x1_0000_0000 then 0xFFFF_FFFF else i as u32
  }

  /** The glyphs' height in pixels: ascent minus descent, rounded up. */
  function GlyphsHeight(l: GlyphLayout): (h: u32)
    ensures 0.0 <= l.ascent - l.descent <= 0xFFFF_FFFF as real ==>
      l.ascent - l.descent <= h as real < l.ascent - l.descent + 1.0
    ensures l.ascent - l.descent <= 0.0 ==> h == 0
    ensures l.ascent - l.descent > 0xFFFF_FFFF as real ==> h as int == 0xFFFF_FFFF
  {
    SatU32(Ceil(l.ascent - l.descent))
  }

  /**
   * `Texture::from_text`: the image is the glyph extent plus the padding on
   * each axis.  The width's `i32`-to-`u32` cast and the `+ 40` wrap modulo
   * 2^32; the height is the saturating cast of `GlyphsHeight` plus 40.  Both
   * are then truncated to `u16`, so each dimension agrees with the padded
   * extent modulo 2^16.
   */
  function FromText(l: GlyphLayout): (t: Texture)
    ensures t.data == l.pixels
    ensures (t.dimensions.x as int - (l.maxX - l.minX + Padding)) % 0x1_0000 == 0
    ensures (t.dimensions.y as int - (GlyphsHeight(l) as int + Padding)) % 0x1_0000 == 0
  {
    Texture(l.pixels,
            Vector2(((l.maxX - l.minX + Padding) % 0x1_0000) as u16,
                    ((GlyphsHeight(l) as int + Padding) % 0x1_0000) as u16))
  }

  /** Within `u16` range, the texture is exactly the glyph extent plus 40 on each axis. */
  lemma FromTextPadding(l: GlyphLayout)
    requires 0 <= l.maxX - l.minX < 0x1_0000 - Padding
    requires 0.0 <= l.ascent - l.descent <= (0x1_0000 - Padding - 1) as real
    ensures FromText(l).dimensions.x as int == l.maxX - l.minX + 40
    ensures FromText(l).dimensions.y as int == Ceil(l.ascent - l.descent) + 40
    ensures FromText(l).dimensions.y >= 40
    ensures FromText(l).data == l.pixels
  {
    var c := Ceil(l.ascent - l.descent);
    assert 0 <= c <= 0x1_0000 - Padding - 1;
  }

  /** The texture a string renders to at a size and colour, when the font can lay it out. */
  function TextureOf(font: Font, text: seq<char>, size: real, color: Color): Texture
    requires font(text, size, color).Some?
  {
    FromText(font(text, size, color).value)
  }

  /** The source renders `text` without a fatal error and with a non-zero texture height. */
  predicate Renderable(font: Font, text: seq<char>, size: real, color: Color)
  {
    |text| > 0 && font(text, size, color).Some? && TextureOf(font, text, size, color).dimensions.y > 0
  }

  /**
   * `Text::adjust_size`: the node is `size` tall and as wide as keeps the
   * texture's aspect ratio.  A zero height (an infinite float in the source)
   * is excluded.
   */
  function AdjustSize(tex: Texture, size: real): (r: Vector2f)
    requires tex.dimensions.y > 0
    ensures r.y == size
    ensures r.x * (tex.dimensions.y as real) == size * (tex.dimensions.x as real)
  {
    var sf := (tex.dimensions.x as real) / (tex.dimensions.y as real);
    Vector2(size * sf, size)
  }

  /** A 200 x 100 texture at size 40 gives an 80 x 40 node. */
  lemma AdjustSizeExample(data: seq<u8>)
    ensures AdjustSize(FromData(data, 200, 100), 40.0) == Vector2(80.0, 40.0)
  {
    var r := AdjustSize(FromData(data, 200, 100), 40.0);
    assert r.x * 100.0 == 40.0 * 200.0;
  }

  /** `Sprite::from_text`: an unloaded sprite, fresh node, holding the rendered text. */
  method SpriteFromText(text: seq<char>, font: Font, size: real, color: Color) returns (s: Sprite)
    requires |text| > 0 && font(text, size, color).Some?
    ensures fresh(s) && fresh(s.node) && s.Valid()
    ensures s.texture == Some(TextureOf(font, text, size, color))
    ensures s.renderer == null && !s.hasLoaded && !s.updateTexture && s.vertices == ZeroArray()
    ensures s.node.size == Zero() && s.node.scale == Vector2(1.0, 1.0) && !s.node.valuesChanged
    ensures s.node.pos == Zero() && s.node.trans == Identity()
  {
    s := new Sprite(Some(TextureOf(font, text, size, color)));
  }

  /** The calls one `Text` render issues: the quad if dirty; texture and quad if the text changed; one draw. */
  function TextFrame(dirty: bool, quad: UvVertexArray, pending: bool, texture: Texture,
                     trans: Transform, hints: RenderHints): seq<TextureCall>
  {
    (if dirty then [UploadVertices(quad)] else [])
      + (if pending then [UploadTexture(texture), UploadVertices(quad)] else [])
      + [Draw(trans, hints.globalTrans)]
  }

  /**
   * A text frame uploads the vertices once per reason (a dirty node, a changed
   * text: twice when both hold), the texture only for a changed text, and
   * draws once, last.
   */
  lemma TextFrameCounts(dirty: bool, quad: UvVertexArray, pending: bool, texture: Texture,
                        trans: Transform, hints: RenderHints)
    ensures VertexUploads(TextFrame(dirty, quad, pending, texture, trans, hints))
      == (if dirty then 1 else 0) + (if pending then 1 else 0)
    ensures TextureUploads(TextFrame(dirty, quad, pending, texture, trans, hints)) == if pending then 1 else 0
    ensures Draws(TextFrame(dirty, quad, pending, texture, trans, hints)) == 1
    ensures TextFrame(dirty, quad, pending, texture, trans, hints)[|TextFrame(dirty, quad, pending, texture, trans, hints)| - 1]
      == Draw(trans, hints.globalTrans)
  {
    var v: seq<TextureCall> := if dirty then [UploadVertices(quad)] else [];
    var t: seq<TextureCall> := if pending then [UploadTexture(texture), UploadVertices(quad)] else [];
    var d := [Draw(trans, hints.globalTrans)];
    if pending {
      CountsAppend([UploadTexture(texture)], [UploadVertices(quad)]);
    }
    CountsAppend(v, t);
    CountsAppend(v + t, d);
  }

  /** A line of text drawn from a texture generated by a font. */
  class Text {
    const node: SizedNodeObject
    var vertices: UvVertexArray
    var text: seq<char>
    var texture: Texture
    var renderer: TextureRenderer?
    const font: Font
    var size: real
    var color: Color
    var updateText: bool
    var hasLoaded: bool
    /** The colour the current texture was generated with. */
    ghost var textureColor: Color

    ghost function Quad(): UvVertexArray
      reads node
    {
      FromSizedNode(node.pos, node.GetScaledSize())
    }

    /**
     * The texture is the font's rendering of the current text at
     * `textureColor`, the node's size follows the texture's aspect ratio, the
     * sprite is loaded exactly when it has a renderer, and while loaded the
     * GPU holds `vertices` and, unless the text changed, the texture and
     * (unless the node is dirty) the current quad.
     */
    ghost predicate Valid()
      reads this, node, renderer
    {
      && font(text, size, textureColor).Some?
      && texture == TextureOf(font, text, size, textureColor)
      && texture.dimensions.y > 0
      && node.size == AdjustSize(texture, size)
      && hasLoaded == (renderer != null)
      && (updateText ==> hasLoaded)
      && (renderer != null ==>
            && renderer.vbuf == vertices
            && (!updateText ==> renderer.tex == texture && (!node.valuesChanged ==> vertices == Quad())))
    }

    constructor (text: seq<char>, font: Font, size: real, color: Color)
      requires Renderable(font, text, size, color)
      ensures Valid() && fresh(node)
      ensures this.text == text && this.font == font && this.size == size && this.color == color
      ensures texture == TextureOf(font, text, size, color) && textureColor == color
      ensures node.size == AdjustSize(texture, size) && node.scale == Vector2(1.0, 1.0)
      ensures node.pos == Zero() && node.trans == Identity() && !node.valuesChanged
      ensures vertices == ZeroArray() && renderer == null && !hasLoaded && !updateText
    {
      var tex := TextureOf(font, text, size, color);
      node := new SizedNodeObject.FromSize(AdjustSize(tex, size));
      vertices := ZeroArray();
      this.text := text;
      texture := tex;
      renderer := null;
      this.font := font;
      this.size := size;
      this.color := color;
      updateText := false;
      hasLoaded := false;
      textureColor := color;
    }

    /**
     * Records the colour and, when loaded, marks the text for re-upload; the
     * texture is not regenerated, so it keeps the colour it was made with.
     */
    method SetColor(c: Color)
      requires Valid()
      modifies this
      ensures Valid()
      ensures color == c && texture == old(texture) && textureColor == old(textureColor)
      ensures updateText == (old(updateText) || hasLoaded)
      ensures text == old(text) && size == old(size) && vertices == old(vertices)
      ensures renderer == old(renderer) && hasLoaded == old(hasLoaded)
    {
      color := c;
      if hasLoaded {
        updateText := true;
      }
    }

    /**
     * Replaces the text, regenerates the texture at the current colour and
     * resizes the node to it directly (the node's flag is not raised); when
     * loaded, marks the text for re-upload.
     */
    method SetText(t: seq<char>)
      requires Valid()
      requires Renderable(font, t, size, color)
      modifies this, node
      ensures Valid()
      ensures color == old(color) && size == old(size)
      ensures text == t && texture == TextureOf(font, t, size, color) && textureColor == color
      ensures node.size == AdjustSize(texture, size)
      ensures node.pos == old(node.pos) && node.trans == old(node.trans) && node.scale == old(node.scale)
      ensures node.valuesChanged == old(node.valuesChanged)
      ensures updateText == (old(updateText) || hasLoaded)
      ensures vertices == old(vertices)
      ensures renderer == old(renderer) && hasLoaded == old(hasLoaded)
    {
      text := t;
      texture := TextureOf(font, text, size, color);
      textureColor := color;
      node.size := AdjustSize(texture, size);
      if hasLoaded {
        updateText := true;
      }
    }

    /** Lays out the quad from the node and creates the renderer with it and the texture. */
    method Load()
      requires Valid()
      modifies this
      ensures Valid() && hasLoaded && fresh(renderer)
      ensures vertices == Quad()
      ensures renderer.vbuf == vertices && renderer.tex == texture && renderer.calls == []
      ensures text == old(text) && texture == old(texture) && color == old(color)
      ensures updateText == old(updateText)
    {
      vertices := FromSizedNode(node.pos, node.GetScaledSize());
      renderer := new TextureRenderer.Create(texture, vertices);
      hasLoaded := true;
    }

    /**
     * Re-uploads the quad if the node was dirty; if the text changed, uploads
     * the texture and then the quad again, and clears the flag; then one draw
     * with the node's transform.  Rendering an unloaded text is fatal.
     */
    method Render(hints: RenderHints)
      requires Valid()
      requires hasLoaded
      modifies this, node, renderer
      ensures Valid() && hasLoaded && renderer == old(renderer)
      ensures text == old(text) && texture == old(texture) && color == old(color) && !updateText
      ensures !node.valuesChanged
      ensures node.SameGeometry(old(node.pos), old(node.trans), old(node.size), old(node.scale))
      ensures vertices == Quad() && renderer.vbuf == vertices && renderer.tex == texture
      ensures renderer.calls == old(renderer.calls) +
        TextFrame(old(node.valuesChanged), Quad(), old(updateText), texture, node.trans, hints)
    {
      var changed := node.AcknowledgeValuesChanged();
      if changed {
        vertices := FromSizedNode(node.pos, node.GetScaledSize());
        renderer.UpdateVertices(vertices);
      }
      if updateText {
        renderer.UpdateTexture(texture);
        vertices := FromSizedNode(node.pos, node.GetScaledSize());
        renderer.UpdateVertices(vertices);
        updateText := false;
      }
      renderer.Render(node.trans, hints);
    }

    /** Releases nothing: the source's `destroy` is empty. */
    method Destroy()
      requires Valid()
      ensures Valid()
      ensures unchanged(this, node)
    {
    }

    method SetPos(p: Vector2f)
      requires Valid()
      modifies node
      ensures Valid() && node.valuesChanged
      ensures node.SameGeometry(p, old(node.trans), old(node.size), old(node.scale))
    {
      node.SetPos(p);
    }

    method SetTrans(t: Transform)
      requires Valid()
      modifies node
      ensures Valid() && node.valuesChanged
      ensures node.SameGeometry(old(node.pos), t, old(node.size), old(node.scale))
    {
      node.SetTrans(t);
    }

    /** Ignored: the node's size always follows the texture. */
    method SetSize(s: Vector2f)
      requires Valid()
      ensures Valid()
      ensures unchanged(this, node)
    {
    }

    method SetScale(s: Vector2f)
      requires Valid()
      modifies node
      ensures Valid() && node.valuesChanged
      ensures node.SameGeometry(old(node.pos), old(node.trans), old(node.size), s)
    {
      node.SetScale(s);
    }
  }

  /**
   * Moving a loaded text and changing its string before one render uploads
   * the vertices twice, the new texture once, and draws once.
   */
  method MoveAndRetextUploads(font: Font, t1: seq<char>, t2: seq<char>, size: real, color: Color,
                              p: Vector2f, hints: RenderHints)
    returns (vertexUploads: nat, textureUploads: nat, draws: nat, uploaded: Texture)
    requires Renderable(font, t1, size, color) && Renderable(font, t2, size, color)
    ensures vertexUploads == 2 && textureUploads == 1 && draws == 1
    ensures uploaded == TextureOf(font, t2, size, color)
  {
    var x := new Text(t1, font, size, color);
    x.Load();
    var r := x.renderer;
    x.SetPos(p);
    x.SetText(t2);
    x.Render(hints);
    TextFrameCounts(true, x.Quad(), true, x.texture, x.node.trans, hints);
    assert r.calls == TextFrame(true, x.Quad(), true, x.texture, x.node.trans, hints);
    vertexUploads, textureUploads, draws := VertexUploads(r.calls), TextureUploads(r.calls), Draws(r.calls);
    uploaded := r.tex;
  }

  /**
   * Changing the colour of a loaded text re-uploads the texture on the next
   * render, but the texture uploaded is the one generated with the old colour.
   */
  method ColorChangeUploadsOldTexture(font: Font, text: seq<char>, size: real, c1: Color, c2: Color,
                                      hints: RenderHints)
    returns (textureUploads: nat, uploaded: Texture)
    requires Renderable(font, text, size, c1)
    ensures textureUploads == 1
    ensures uploaded == TextureOf(font, text, size, c1)
  {
    var x := new Text(text, font, size, c1);
    x.Load();
    var r := x.renderer;
    x.SetColor(c2);
    x.Render(hints);
    TextFrameCounts(false, x.Quad(), true, x.texture, x.node.trans, hints);
    assert r.calls == TextFrame(false, x.Quad(), true, x.texture, x.node.trans, hints);
    textureUploads := TextureUploads(r.calls);
    uploaded := r.tex;
  }

  /**
   * Changing the string before `load` raises no flag: `load` lays out the quad
   * from the resized node and uploads the new texture, and the first render
   * uploads nothing.
   */
  method RetextBeforeLoad(font: Font, t1: seq<char>, t2: seq<char>, size: real, color: Color,
                          hints: RenderHints)
    returns (loadedTexture: Texture, loadedSize: Vector2f, uploads: nat)
    requires Renderable(font, t1, size, color) && Renderable(font, t2, size, color)
    ensures loadedTexture == TextureOf(font, t2, size, color)
    ensures loadedSize == AdjustSize(TextureOf(font, t2, size, color), size)
    ensures uploads == 0
  {
    var x := new Text(t1, font, size, color);
    x.SetText(t2);
    x.Load();
    var r := x.renderer;
    loadedTexture := r.tex;
    loadedSize := x.node.size;
    x.Render(hints);
    TextFrameCounts(false, x.Quad(), false, x.texture, x.node.trans, hints);
    assert r.calls == TextFrame(false, x.Quad(), false, x.texture, x.node.trans, hints);
    uploads := VertexUploads(r.calls) + TextureUploads(r.calls);
  }
}
