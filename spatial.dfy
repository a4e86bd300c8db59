/**
 * Three-dimensional meshes: the mesh renderer (an abstract GPU sink that
 * records every call) and the `Entity` drawable.  An entity rendered before
 * `load` does nothing.
 */
module Spatial {
  import opened Types
  import opened Render

  datatype Vector3 = Vector3(x: real, y: real, z: real)

  /** A mesh vertex: a position and a texture coordinate. */
  datatype UvVertex3f = UvVertex3f(pos: Vector3, uv: Vector2f)

  datatype Mesh = Mesh(vertices: seq<UvVertex3f>)

  function NewMesh(): (m: Mesh)
    ensures |m.vertices| == 0
  {
    Mesh([])
  }

  /** Copies the positions, in order, each with texture coordinate (0,0). */
  method FromVertices(verts: seq<Vector3>) returns (m: Mesh)
    ensures |m.vertices| == |verts|
    ensures forall i :: 0 <= i < |verts| ==> m.vertices[i].pos == verts[i] && m.vertices[i].uv == Zero()
  {
    var uvverts: seq<UvVertex3f> := [];
    for k := 0 to |verts|
      invariant |uvverts| == k
      invariant forall i :: 0 <= i < k ==> uvverts[i].pos == verts[i] && uvverts[i].uv == Zero()
    {
      var v := verts[k];
      uvverts := uvverts + [UvVertex3f(Vector3(v.x, v.y, v.z), Vector2(0.0, 0.0))];
    }
    m := Mesh(uvverts);
  }

  /**
   * The 3D node.  Its type is not defined in the repository; this stand-in
   * keeps only the transform the entity reads, initially the identity.
   */
  datatype NodeObject3D = NodeObject3D(trans: Matrix4)

  function NewNodeObject3D(): (n: NodeObject3D)
    ensures forall i, j :: 0 <= i < 4 && 0 <= j < 4 ==>
      Component(Column(n.trans, j), i) == if i == j then 1.0 else 0.0
  {
    NodeObject3D(IdentityMatrix())
  }

  /**
   * The texture an entity without one is loaded with (`Texture::new`, which
   * the repository does not define): an empty 0 x 0 stand-in.
   */
  const DefaultTexture: Texture := Texture([], Vector2(0, 0))

  /** The camera's view and projection matrices, read at every entity draw. */
  datatype Camera = Camera(view: Matrix4, projection: Matrix4)

  /** One call received by a mesh renderer. */
  datatype MeshCall =
    | MeshUploadVertices(vertices: seq<UvVertex3f>)
    | MeshUploadTexture(texture: Texture)
    | MeshDraw(model: Matrix4, view: Matrix4, projection: Matrix4)

  /** The GPU side of an entity: bound vertices and texture and the log of calls. */
  class MeshRenderer {
    var vbuf: seq<UvVertex3f>
    var tex: Texture
    var calls: seq<MeshCall>

    constructor Create(vertices: seq<UvVertex3f>, texture: Texture)
      ensures vbuf == vertices && tex == texture && calls == []
    {
      vbuf := vertices;
      tex := texture;
      calls := [];
    }

    method UpdateVertices(vertices: seq<UvVertex3f>)
      modifies this
      ensures vbuf == vertices && tex == old(tex)
      ensures calls == old(calls) + [MeshUploadVertices(vertices)]
    {
      vbuf := vertices;
      calls := calls + [MeshUploadVertices(vertices)];
    }

    method UpdateTexture(texture: Texture)
      modifies this
      ensures tex == texture && vbuf == old(vbuf)
      ensures calls == old(calls) + [MeshUploadTexture(texture)]
    {
      tex := texture;
      calls := calls + [MeshUploadTexture(texture)];
    }

    method Render(model: Matrix4, view: Matrix4, projection: Matrix4)
      modifies this
      ensures vbuf == old(vbuf) && tex == old(tex)
      ensures calls == old(calls) + [MeshDraw(model, view, projection)]
    {
      calls := calls + [MeshDraw(model, view, projection)];
    }
  }

  /** A textured mesh placed by a 3D node. */
  class Entity {
    var node: NodeObject3D
    var mesh: Mesh
    var texture: Option<Texture>
    var meshRenderer: MeshRenderer?

    constructor ()
      ensures node == NewNodeObject3D() && mesh == NewMesh() && texture == None && meshRenderer == null
    {
      node := NewNodeObject3D();
      mesh := NewMesh();
      texture := None;
      meshRenderer := null;
    }

    constructor FromMesh(mesh: Mesh, texture: Option<Texture>)
      ensures node == NewNodeObject3D() && this.mesh == mesh && this.texture == texture && meshRenderer == null
    {
      node := NewNodeObject3D();
      this.mesh := mesh;
      this.texture := texture;
      meshRenderer := null;
    }

    /** Always installs a renderer: the entity's texture if it has one, the default texture otherwise. */
    method Load()
      modifies this
      ensures fresh(meshRenderer)
      ensures meshRenderer.vbuf == mesh.vertices && meshRenderer.calls == []
      ensures meshRenderer.tex == if texture.Some? then texture.value else DefaultTexture
      ensures node == old(node) && mesh == old(mesh) && texture == old(texture)
    {
      if texture.Some? {
        meshRenderer := new MeshRenderer.Create(mesh.vertices, texture.value);
      } else {
        meshRenderer := new MeshRenderer.Create(mesh.vertices, DefaultTexture);
      }
    }

    /** Draws once with the node's transform and the camera, or does nothing before `load`. */
    method Render(camera: Camera)
      modifies meshRenderer
      ensures meshRenderer == old(meshRenderer)
      ensures meshRenderer != null ==>
        && meshRenderer.vbuf == old(meshRenderer.vbuf) && meshRenderer.tex == old(meshRenderer.tex)
        && meshRenderer.calls == old(meshRenderer.calls) + [MeshDraw(node.trans, camera.view, camera.projection)]
    {
      if meshRenderer != null {
        meshRenderer.Render(node.trans, camera.view, camera.projection);
      }
    }

    /** Releases nothing: the source's `destroy` is empty. */
    method Destroy()
      ensures unchanged(this)
    {
    }
  }

  /**
   * An entity rendered before `load` neither fails nor draws; after `load`
   * each render draws exactly once.
   */
  method RenderBeforeLoadIsNoOp(mesh: Mesh, camera: Camera)
    returns (loadedBeforeRender: bool, draws: nat)
    ensures !loadedBeforeRender && draws == 1
  {
    var e := new Entity.FromMesh(mesh, None);
    e.Render(camera);
    loadedBeforeRender := e.meshRenderer != null;
    e.Load();
    e.Render(camera);
    draws := |e.meshRenderer.calls|;
  }
}
