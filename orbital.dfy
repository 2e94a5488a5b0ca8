/**
 * The `POrbital` component's shape: the `scale` that stretches a sphere into a
 * lobe along the requested axis, and where its label is placed.
 */
module Orbital {
  import opened Maths

  datatype Axis = X | Y | Z

  /** The axis an `orientation` string selects; anything but "y" or "z" means x. */
  function LobeAxis(orientation: string): (a: Axis)
    ensures a == Y <==> orientation == "y"
    ensures a == Z <==> orientation == "z"
    ensures a == X <==> orientation != "y" && orientation != "z"
  {
    if orientation == "y" then Y else if orientation == "z" then Z else X
  }

  function Component(v: Vec3, a: Axis): real
  {
    match a
    case X => v.x
    case Y => v.y
    case Z => v.z
  }

  /** The lobe's scale: long factor 1.2 on the requested axis, 0.4 on the other two. */
  function Scale(orientation: string): (s: Vec3)
    ensures forall a: Axis :: Component(s, a) == if a == LobeAxis(orientation) then 1.2 else 0.4
  {
    if orientation == "y" then Vec3(0.4, 1.2, 0.4)
    else if orientation == "z" then Vec3(0.4, 0.4, 1.2)
    else Vec3(1.2, 0.4, 0.4)
  }

  /**
   * The label's offset: four units out along y or z, and the diagonal
   * (2, 2, 2) for the x-lobe default.
   */
  function LabelOffset(orientation: string): (o: Vec3)
    ensures LobeAxis(orientation) == X ==> o == Vec3(2.0, 2.0, 2.0)
    ensures LobeAxis(orientation) != X ==>
              forall a: Axis :: Component(o, a) == if a == LobeAxis(orientation) then 4.0 else 0.0
  {
    if orientation == "y" then Vec3(0.0, 4.0, 0.0)
    else if orientation == "z" then Vec3(0.0, 0.0, 4.0)
    else Vec3(2.0, 2.0, 2.0)
  }

  /** Radius of the sphere that `scale` stretches into the lobe (`args={[0.8, 32, 32]}`). */
  const LobeSphereRadius: real := 0.8

  /**
   * Exactly one axis of the scale is long, the selected one; no label-offset
   * component exceeds the one on that axis; and, at mount, the label's offset
   * along that axis lies beyond the tip of the stretched lobe (0.8 · 1.2).
   */
  lemma LabelBeyondLongAxis(orientation: string)
    ensures forall a: Axis :: Component(Scale(orientation), a) == 1.2 <==> a == LobeAxis(orientation)
    ensures forall a: Axis ::
              Component(LabelOffset(orientation), a) <= Component(LabelOffset(orientation), LobeAxis(orientation))
    ensures Component(LabelOffset(orientation), LobeAxis(orientation))
            > LobeSphereRadius * Component(Scale(orientation), LobeAxis(orientation))
  {
  }
}
