/**
 * Node objects: the position and transform of a drawable, plus a
 * `valuesChanged` flag that every setter raises and that the drawable reads
 * and clears ("acknowledges") when it decides whether to re-upload its
 * vertices.  The Rust getters are plain reads of the public
 * fields `pos`, `trans`, `size` and `scale`.
 */
module Node {
  import opened Types

  /** A node with a position and a transform. */
  class NodeObject {
    var pos: Vector2f
    var trans: Transform
    var valuesChanged: bool

    constructor ()
      ensures pos == Zero() && trans == Identity() && !valuesChanged
    {
      pos := Zero();
      trans := Identity();
      valuesChanged := false;
    }

    /** Reports whether a setter ran since the last acknowledgement, and clears the flag. */
    method AcknowledgeValuesChanged() returns (changed: bool)
      modifies this
      ensures changed == old(valuesChanged)
      ensures !valuesChanged
      ensures pos == old(pos) && trans == old(trans)
    {
      if valuesChanged {
        valuesChanged := false;
        return true;
      }
      return false;
    }

    method SetPos(p: Vector2f)
      modifies this
      ensures pos == p && valuesChanged
      ensures trans == old(trans)
    {
      pos := p;
      valuesChanged := true;
    }

    method SetTrans(t: Transform)
      modifies this
      ensures trans == t && valuesChanged
      ensures pos == old(pos)
    {
      trans := t;
      valuesChanged := true;
    }
  }

  /** A node that also has a size and a per-axis scale. */
  class SizedNodeObject {
    var pos: Vector2f
    var trans: Transform
    var size: Vector2f
    var scale: Vector2f
    var valuesChanged: bool

    constructor ()
      ensures pos == Zero() && trans == Identity() && !valuesChanged
      ensures size == Zero() && scale == Vector2(1.0, 1.0)
    {
      pos := Zero();
      trans := Identity();
      size := Zero();
      scale := Vector2(1.0, 1.0);
      valuesChanged := false;
    }

    constructor FromSize(s: Vector2f)
      ensures pos == Zero() && trans == Identity() && !valuesChanged
      ensures size == s && scale == Vector2(1.0, 1.0)
    {
      pos := Zero();
      trans := Identity();
      size := s;
      scale := Vector2(1.0, 1.0);
      valuesChanged := false;
    }

    /** The node's geometry, everything except the flag. */
    ghost predicate SameGeometry(p: Vector2f, t: Transform, sz: Vector2f, sc: Vector2f)
      reads this
    {
      pos == p && trans == t && size == sz && scale == sc
    }

    method AcknowledgeValuesChanged() returns (changed: bool)
      modifies this
      ensures changed == old(valuesChanged)
      ensures !valuesChanged
      ensures SameGeometry(old(pos), old(trans), old(size), old(scale))
    {
      if valuesChanged {
        valuesChanged := false;
        return true;
      }
      return false;
    }

    method SetPos(p: Vector2f)
      modifies this
      ensures valuesChanged
      ensures SameGeometry(p, old(trans), old(size), old(scale))
    {
      pos := p;
      valuesChanged := true;
    }

    method SetTrans(t: Transform)
      modifies this
      ensures valuesChanged
      ensures SameGeometry(old(pos), t, old(size), old(scale))
    {
      trans := t;
      valuesChanged := true;
    }

    /** Stores the size as given (no division by an intrinsic size). */
    method SetSize(s: Vector2f)
      modifies this
      ensures valuesChanged
      ensures SameGeometry(old(pos), old(trans), s, old(scale))
    {
      size := s;
      valuesChanged := true;
    }

    method SetScale(s: Vector2f)
      modifies this
      ensures valuesChanged
      ensures SameGeometry(old(pos), old(trans), old(size), s)
    {
      scale := s;
      valuesChanged := true;
    }

    /** The size on screen: size times scale on each axis. */
    function GetScaledSize(): (r: Vector2f)
      reads this
      ensures forall i :: 0 <= i < 2 ==> At(r, i) == At(size, i) * At(scale, i)
    {
      Mul(size, scale)
    }
  }

  /** A read-and-clear with no setter in between reports a change only the first time. */
  method AcknowledgeTwice(p: Vector2f) returns (first: bool, second: bool)
    ensures first && !second
  {
    var n := new SizedNodeObject();
    n.SetPos(p);
    first := n.AcknowledgeValuesChanged();
    second := n.AcknowledgeValuesChanged();
  }

  /** A fresh node reports no change until a setter runs. */
  method FreshNodeIsClean() returns (changed: bool)
    ensures !changed
  {
    var n := new NodeObject();
    changed := n.AcknowledgeValuesChanged();
  }
}
