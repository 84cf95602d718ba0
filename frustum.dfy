/**
 * The bounding-sphere view-frustum test (srcs/frustum.py).
 *
 * A chunk is drawn when the sphere of radius CHUNK_SPHERE_RADIUS around its centre lies
 * between the near and far planes and inside the vertical and horizontal fields of view. The
 * test works on the vector from the camera to the chunk centre, projected on the camera's
 * forward, up and right axes. Arithmetic is over exact reals.
 */
module Frustums {
  import opened Settings

  /** The constants the frustum precomputes: 1 / cos and tan of half the horizontal and vertical
      fields of view, and the chunk bounding-sphere radius H_CHUNK_SIZE * sqrt(3). */
  datatype Frustum = Frustum(factorX: real, tanX: real, factorY: real, tanY: real, radius: real)
  {
    /** What the constants satisfy for any half-angle strictly between 0 and 90 degrees:
        0 < tan < 1 / cos; the radius is the half-diagonal of a chunk. */
    predicate Valid()
    {
      0.0 < tanX < factorX && 0.0 < tanY < factorY
      && radius > 0.0 && radius * radius == 3.0 * (H_CHUNK_SIZE * H_CHUNK_SIZE) as real
    }
  }

  /** The camera state the test reads: position and the three view axes. */
  datatype View = View(position: Vec3, forward: Vec3, up: Vec3, right: Vec3)

  /** is_on_frustum: the three checks in source order, each rejecting on failure. */
  function IsOnFrustum(fr: Frustum, view: View, center: Vec3): bool
  {
    var v := center.Sub(view.position);
    var sz := Dot(v, view.forward);
    if !(NEAR - fr.radius <= sz <= FAR + fr.radius) then false
    else
      var sy := Dot(v, view.up);
      var dy := fr.factorY * fr.radius + sz * fr.tanY;
      if !(-dy <= sy <= dy) then false
      else
        var sx := Dot(v, view.right);
        var dx := fr.factorX * fr.radius + sz * fr.tanX;
        -dx <= sx <= dx
  }

  // The six planes of the frustum, each widened by the sphere's radius, as half-spaces over
  // the camera-to-centre vector v.

  predicate NearPlane(fr: Frustum, view: View, v: Vec3) { Dot(v, view.forward) >= NEAR - fr.radius }
  predicate FarPlane(fr: Frustum, view: View, v: Vec3) { Dot(v, view.forward) <= FAR + fr.radius }
  predicate TopPlane(fr: Frustum, view: View, v: Vec3)
  {
    Dot(v, view.up) <= fr.factorY * fr.radius + Dot(v, view.forward) * fr.tanY
  }
  predicate BottomPlane(fr: Frustum, view: View, v: Vec3)
  {
    -Dot(v, view.up) <= fr.factorY * fr.radius + Dot(v, view.forward) * fr.tanY
  }
  predicate RightPlane(fr: Frustum, view: View, v: Vec3)
  {
    Dot(v, view.right) <= fr.factorX * fr.radius + Dot(v, view.forward) * fr.tanX
  }
  predicate LeftPlane(fr: Frustum, view: View, v: Vec3)
  {
    -Dot(v, view.right) <= fr.factorX * fr.radius + Dot(v, view.forward) * fr.tanX
  }

  /** The staged test accepts exactly the centres inside all six widened planes: the early
      returns reject nothing a plane accepts and accept nothing a plane rejects. */
  lemma OnFrustumIffInsideAllPlanes(fr: Frustum, view: View, center: Vec3)
    ensures IsOnFrustum(fr, view, center) <==>
              var v := center.Sub(view.position);
              NearPlane(fr, view, v) && FarPlane(fr, view, v) && TopPlane(fr, view, v)
              && BottomPlane(fr, view, v) && RightPlane(fr, view, v) && LeftPlane(fr, view, v)
  {
  }

  /** A chunk whose centre is too close behind or beyond the far plane is rejected, whatever the
      other axes say. */
  lemma OutsideDepthRangeRejected(fr: Frustum, view: View, center: Vec3)
    requires var sz := Dot(center.Sub(view.position), view.forward);
             sz < NEAR - fr.radius || sz > FAR + fr.radius
    ensures !IsOnFrustum(fr, view, center)
  {
  }

  /** The chunk the camera stands in is always drawn. */
  lemma CenteredChunkAccepted(fr: Frustum, view: View)
    requires fr.Valid()
    ensures IsOnFrustum(fr, view, view.position)
  {
    var v := view.position.Sub(view.position);
    assert v == Vec3(0.0, 0.0, 0.0);
    RadiusExceedsNear(fr.radius);
  }

  lemma RadiusExceedsNear(r: real)
    requires r > 0.0 && r * r == 3.0 * (H_CHUNK_SIZE * H_CHUNK_SIZE) as real
    ensures r >= NEAR
  {
    assert r * r == 1728.0;
    if r < 0.1 {
      assert false;
    }
  }

  /** A chunk straight ahead on the forward axis, at a depth the near and far checks accept, is
      drawn when the view axes are orthonormal. */
  lemma AheadOnAxisAccepted(fr: Frustum, view: View, t: real)
    requires fr.Valid()
    requires Dot(view.forward, view.forward) == 1.0
    requires Dot(view.forward, view.up) == 0.0 && Dot(view.forward, view.right) == 0.0
    requires NEAR - fr.radius <= t <= FAR + fr.radius
    ensures IsOnFrustum(fr, view, view.position.Add(view.forward.Scale(t)))
  {
    var c := view.position.Add(view.forward.Scale(t));
    var v := c.Sub(view.position);
    assert v == view.forward.Scale(t);
    DotScale(view.forward, t, view.forward);
    DotScale(view.forward, t, view.up);
    DotScale(view.forward, t, view.right);
    DepthKeepsDistancePositive(fr, t, fr.factorY, fr.tanY);
    DepthKeepsDistancePositive(fr, t, fr.factorX, fr.tanX);
  }

  lemma DotScale(a: Vec3, t: real, b: Vec3)
    ensures Dot(a.Scale(t), b) == t * Dot(a, b)
  {
  }

  /** At any accepted depth the widened half-width of the field of view is positive. */
  lemma DepthKeepsDistancePositive(fr: Frustum, t: real, factor: real, tan: real)
    requires fr.Valid() && 0.0 < tan < factor
    requires t >= NEAR - fr.radius
    ensures factor * fr.radius + t * tan >= 0.0
  {
    if t < 0.0 {
      assert t > -fr.radius;
      assert t * tan >= -fr.radius * tan;
      assert fr.radius * tan <= fr.radius * factor;
    }
  }

  /** The vertical and horizontal checks are symmetric: flipping the up or right axis changes
      nothing. */
  lemma FlippedAxesAgree(fr: Frustum, view: View, center: Vec3)
    ensures IsOnFrustum(fr, view.(up := view.up.Neg()), center) == IsOnFrustum(fr, view, center)
    ensures IsOnFrustum(fr, view.(right := view.right.Neg()), center) == IsOnFrustum(fr, view, center)
  {
    var v := center.Sub(view.position);
    assert Dot(v, view.up.Neg()) == -Dot(v, view.up);
    assert Dot(v, view.right.Neg()) == -Dot(v, view.right);
  }
}
