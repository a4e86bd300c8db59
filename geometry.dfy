/**
 * Untextured geometry: the geometry renderer (an abstract GPU sink that
 * records its draws) and the `Triangle` drawable, which has no dirty
 * tracking: its vertices are uploaded once, at `load`.
 */
module Geometry {
  import opened Types
  import opened Node
  import opened Render

  /** A coloured vertex: a position and the raw colour handed to the shader. */
  datatype Vertex = Vertex(pos: Vector2f, color: RawColor)

  /** The fixed triangle, every corner painted with the colour's raw form. */
  function TriangleVertices(c: Color): (vs: seq<Vertex>)
    ensures |vs| == 3
    ensures forall i :: 0 <= i < 3 ==> vs[i].color == ToRawColor(c)
  {
    [Vertex(Vector2(-0.5, -0.5), ToRawColor(c)),
     Vertex(Vector2(0.5, -0.5), ToRawColor(c)),
     Vertex(Vector2(0.0, 0.5), ToRawColor(c))]
  }

  /**
   * The triangle's corners are (-0.5,-0.5), (0.5,-0.5) and (0,0.5), whatever
   * the colour.  So its base is horizontal and centred on the origin, its apex
   * is above the origin, and it lies inside the square of side 1 centred on
   * the origin.
   */
  lemma TriangleShape(c1: Color, c2: Color)
    ensures TriangleVertices(c1)[0].pos == Vector2(-0.5, -0.5)
    ensures TriangleVertices(c1)[1].pos == Vector2(0.5, -0.5)
    ensures TriangleVertices(c1)[2].pos == Vector2(0.0, 0.5)
    ensures forall i :: 0 <= i < 3 ==> TriangleVertices(c1)[i].pos == TriangleVertices(c2)[i].pos
    ensures TriangleVertices(c1)[0].pos.y == TriangleVertices(c1)[1].pos.y
    ensures TriangleVertices(c1)[0].pos.x == -TriangleVertices(c1)[1].pos.x
    ensures TriangleVertices(c1)[2].pos.x == 0.0 && TriangleVertices(c1)[2].pos.y > TriangleVertices(c1)[0].pos.y
    ensures forall i :: 0 <= i < 3 ==>
      -0.5 <= TriangleVertices(c1)[i].pos.x <= 0.5 && -0.5 <= TriangleVertices(c1)[i].pos.y <= 0.5
  {
  }

  /** One draw received by a geometry renderer. */
  datatype GeometryDraw = GeometryDraw(local: Transform, global: Transform)

  /** The GPU side of an untextured drawable: its vertex buffer and the draws it received. */
  class GeometryRenderer {
    var vbuf: seq<Vertex>
    var draws: seq<GeometryDraw>

    constructor FromVertices(vertices: seq<Vertex>)
      ensures vbuf == vertices && draws == []
    {
      vbuf := vertices;
      draws := [];
    }

    method Render(transform: Transform, hints: RenderHints)
      modifies this
      ensures vbuf == old(vbuf)
      ensures draws == old(draws) + [GeometryDraw(transform, hints.globalTrans)]
    {
      draws := draws + [GeometryDraw(transform, hints.globalTrans)];
    }
  }

  /** A coloured triangle. */
  class Triangle {
    const node: NodeObject
    const vertices: seq<Vertex>
    const color: Color
    var renderer: GeometryRenderer?

    /** A loaded triangle's GPU buffer holds its vertices. */
    ghost predicate Valid()
      reads this, renderer
    {
      renderer != null ==> renderer.vbuf == vertices
    }

    constructor (color: Color)
      ensures Valid() && fresh(node)
      ensures vertices == TriangleVertices(color) && this.color == color && renderer == null
      ensures node.pos == Zero() && node.trans == Identity() && !node.valuesChanged
    {
      node := new NodeObject();
      vertices := TriangleVertices(color);
      this.color := color;
      renderer := null;
    }

    method Load()
      modifies this
      ensures Valid() && fresh(renderer)
      ensures renderer.vbuf == vertices && renderer.draws == []
    {
      renderer := new GeometryRenderer.FromVertices(vertices);
    }

    /**
     * One draw with the node's transform; the node's flag is neither read nor
     * cleared and the vertices are never re-uploaded.  Rendering an unloaded
     * triangle is fatal.
     */
    method Render(hints: RenderHints)
      requires Valid()
      requires renderer != null
      modifies renderer
      ensures Valid() && unchanged(node)
      ensures renderer.vbuf == old(renderer.vbuf)
      ensures renderer.draws == old(renderer.draws) + [GeometryDraw(node.trans, hints.globalTrans)]
    {
      renderer.Render(node.trans, hints);
    }

    /** Releases nothing: the source's `destroy` is empty. */
    method Destroy()
      ensures unchanged(this, node)
    {
    }

    method SetPos(p: Vector2f)
      requires Valid()
      modifies node
      ensures Valid()
      ensures node.pos == p && node.valuesChanged && node.trans == old(node.trans)
    {
      node.SetPos(p);
    }

    method SetTrans(t: Transform)
      requires Valid()
      modifies node
      ensures Valid()
      ensures node.trans == t && node.valuesChanged && node.pos == old(node.pos)
    {
      node.SetTrans(t);
    }
  }

  /**
   * Moving a loaded triangle and rendering it leaves the node dirty, keeps
   * the vertices uploaded at `load`, and draws once with the node's
   * transform, which `set_pos` does not touch: the triangle is drawn exactly
   * where it was.
   */
  method MovedTriangleKeepsVertices(c: Color, p: Vector2f, hints: RenderHints)
    returns (stillDirty: bool, draws: seq<GeometryDraw>, bound: seq<Vertex>, pos: Vector2f)
    ensures stillDirty && bound == TriangleVertices(c) && pos == p
    ensures draws == [GeometryDraw(Identity(), hints.globalTrans)]
  {
    var t := new Triangle(c);
    t.Load();
    t.SetPos(p);
    t.Render(hints);
    stillDirty := t.node.valuesChanged;
    draws := t.renderer.draws;
    bound := t.renderer.vbuf;
    pos := t.node.pos;
  }
}
