/**
 * A guard's perception: the view cone built from a fan of raycasts, the (not yet written)
 * sight test, and hearing. Positions are of any type P, compared through the distance
 * function the guard is configured with.
 */
module Perception {
  import opened Common
  import opened Player

  /**
   * A view-cone vertex. Cartesian is a point; Polar(angle, range) is the point at height 1,
   * range away, angle degrees from the forward axis (the source converts it with sine and cosine).
   */
  datatype Vertex = Cartesian(x: real, y: real, z: real) | Polar(angle: real, range: real)

  /** A float that is either a finite number or not (the result of dividing by zero). */
  datatype Scalar = Finite(value: real) | NotFinite

  /** A texture coordinate. */
  datatype UV = UV(u: Scalar, v: real)

  /**
   * The triangle fan of a cone with numRays rays: triangle i joins the apex (vertex 0)
   * with the ends of rays i and i + 1 (vertices i + 1 and i + 2).
   */
  function TriangleIndices(numRays: int): (indices: seq<int>)
    requires numRays >= 1
    ensures |indices| == (numRays - 1) * 3
    decreases numRays
  {
    if numRays == 1 then [] else TriangleIndices(numRays - 1) + [0, numRays - 1, numRays]
  }

  /**
   * Triangle t of the fan joins the apex with vertices t + 1 and t + 2, and every index
   * names one of the numRays + 1 vertices of the cone.
   */
  lemma {:induction false} FanTriangles(numRays: int)
    requires numRays >= 1
    ensures var indices := TriangleIndices(numRays);
      forall t :: 0 <= t < numRays - 1 ==>
        indices[3 * t] == 0 && indices[3 * t + 1] == t + 1 && indices[3 * t + 2] == t + 2
    ensures forall k :: 0 <= k < |TriangleIndices(numRays)| ==> 0 <= TriangleIndices(numRays)[k] <= numRays
    decreases numRays
  {
    if numRays > 1 {
      FanTriangles(numRays - 1);
      var rest := TriangleIndices(numRays - 1);
      var indices := rest + [0, numRays - 1, numRays];
      assert TriangleIndices(numRays) == indices;
      forall t | 0 <= t < numRays - 1
        ensures indices[3 * t] == 0 && indices[3 * t + 1] == t + 1 && indices[3 * t + 2] == t + 2
      {
        if t < numRays - 2 {
          assert indices[3 * t] == rest[3 * t];
          assert indices[3 * t + 1] == rest[3 * t + 1];
          assert indices[3 * t + 2] == rest[3 * t + 2];
        } else {
          assert 3 * t == |rest|;
        }
      }
    }
  }

  /** The angle, in degrees from forward, of ray i: rays are spread evenly from -viewAngle/2 to +viewAngle/2. */
  function RayAngle(viewAngle: real, numRays: int, i: int): real
    requires numRays >= 2
  {
    viewAngle * -0.5 + i as real * (viewAngle / (numRays - 1) as real)
  }

  /** The first ray is the left edge of the cone and the last ray its right edge. */
  lemma {:induction false} ConeEdges(viewAngle: real, numRays: int)
    requires numRays >= 2
    ensures RayAngle(viewAngle, numRays, 0) == -viewAngle / 2.0
    ensures RayAngle(viewAngle, numRays, numRays - 1) == viewAngle / 2.0
  {
    var n := (numRays - 1) as real;
    assert n * (viewAngle / n) == viewAngle;
  }

  /** With a positive view angle the ray angles strictly increase, left to right. */
  lemma {:induction false} RayAnglesIncrease(viewAngle: real, numRays: int, i: int, j: int)
    requires numRays >= 2 && viewAngle > 0.0 && i < j
    ensures RayAngle(viewAngle, numRays, i) < RayAngle(viewAngle, numRays, j)
  {
    var step := viewAngle / (numRays - 1) as real;
    assert step > 0.0;
    assert RayAngle(viewAngle, numRays, j) - RayAngle(viewAngle, numRays, i) == (j - i) as real * step;
    PositiveProduct((j - i) as real, step);
  }

  lemma PositiveProduct(x: real, y: real)
    requires x > 0.0 && y > 0.0
    ensures x * y > 0.0
  {
  }

  /** A ray reaches the full view range unless the raycast hits something, and then stops at the hit. */
  function RayRange(viewRange: real, hit: Option<real>): (range: real)
    ensures hit.None? ==> range == viewRange
    ensures hit.Some? ==> range == hit.value
    ensures 0.0 <= viewRange && (hit.Some? ==> 0.0 <= hit.value <= viewRange) ==> 0.0 <= range <= viewRange
  {
    match hit
    case None => viewRange
    case Some(d) => d
  }

  /** The u coordinate: the fraction of the view range the ray reaches, scaled by 0.99. */
  function RangeU(range: real, viewRange: real): (u: Scalar)
    ensures u.NotFinite? <==> viewRange == 0.0
    ensures u.Finite? ==> u.value * viewRange == 0.99 * range
  {
    if viewRange == 0.0 then NotFinite else Finite(0.99 * (range / viewRange))
  }

  /** The v coordinate: 0 on the two edge rays of the cone, 1 inside it. */
  function EdgeV(numRays: int, i: int): (v: real)
    ensures v == 0.0 <==> i == 0 || i == numRays - 1
    ensures v == 0.0 || v == 1.0
  {
    if i == 0 || i == numRays - 1 then 0.0 else 1.0
  }

  /** A hit within a positive view range gives a u coordinate in [0, 0.99]; no hit gives exactly 0.99. */
  lemma {:induction false} RangeUBounds(viewRange: real, hit: Option<real>)
    requires viewRange > 0.0
    requires hit.Some? ==> 0.0 <= hit.value <= viewRange
    ensures RangeU(RayRange(viewRange, hit), viewRange).Finite?
    ensures 0.0 <= RangeU(RayRange(viewRange, hit), viewRange).value <= 0.99
    ensures hit.None? ==> RangeU(RayRange(viewRange, hit), viewRange).value == 0.99
  {
    FractionBounds(RayRange(viewRange, hit), viewRange);
  }

  lemma FractionBounds(part: real, whole: real)
    requires whole > 0.0 && 0.0 <= part <= whole
    ensures 0.0 <= part / whole <= 1.0
  {
    var q := part / whole;
    assert part == q * whole;
    assert whole - part == (1.0 - q) * whole;
  }

  /** Writes the triangle fan of a cone with numRays rays into indices, one triangle at a time. */
  method FillTriangleFan(indices: array<int>, numRays: int)
    requires numRays >= 1 && indices.Length == (numRays - 1) * 3
    modifies indices
    ensures indices[..] == TriangleIndices(numRays)
  {
    for i := 0 to numRays - 1
      invariant indices[..3 * i] == TriangleIndices(i + 1)
    {
      ghost var done := indices[..3 * i];
      indices[i * 3] := 0;
      indices[i * 3 + 1] := i + 1;
      indices[i * 3 + 2] := i + 2;
      assert indices[..3 * (i + 1)] == done + [0, i + 1, i + 2];
    }
    assert indices[..] == indices[..3 * (numRays - 1)];
  }

  class AIPerception<P> {
    const viewRange: real
    const viewAngle: real
    const hearingRange: real
    const numRays: int
    /** Vector3.Distance on positions. */
    const distance: (P, P) -> real

    var viewConeVertices: array<Vertex>
    var viewConeUVs: array<UV>
    var viewConeIndices: array<int>
    var viewConeColor: Color
    var lastPosition: P
    var targetConfirmed: bool
    var targetSuspected: bool

    /** After Start: the arrays have their sizes, and a confirmed target is always suspected. */
    ghost predicate Valid()
      reads this
    {
      && numRays >= 3
      && viewConeVertices.Length == numRays + 1
      && viewConeUVs.Length == numRays + 1
      && viewConeIndices.Length == (numRays - 1) * 3
      && (targetConfirmed ==> targetSuspected)
    }

    /**
     * A new component with its inspector settings (numRays is at least 3 there); origin is
     * the zero vector, the initial last position. The arrays do not exist before Start.
     */
    constructor (viewRange: real, viewAngle: real, hearingRange: real, numRays: int,
                 distance: (P, P) -> real, origin: P)
      requires numRays >= 3
      ensures this.viewRange == viewRange && this.viewAngle == viewAngle
      ensures this.hearingRange == hearingRange && this.numRays == numRays && this.distance == distance
      ensures lastPosition == origin && !targetConfirmed && !targetSuspected
      ensures viewConeColor == Color(0.0, 0.0, 0.0, 0.0)
      ensures viewConeVertices.Length == 0 && viewConeUVs.Length == 0 && viewConeIndices.Length == 0
    {
      this.viewRange := viewRange;
      this.viewAngle := viewAngle;
      this.hearingRange := hearingRange;
      this.numRays := numRays;
      this.distance := distance;
      viewConeVertices := new Vertex[0];
      viewConeUVs := new UV[0];
      viewConeIndices := new int[0];
      viewConeColor := Color(0.0, 0.0, 0.0, 0.0);
      lastPosition := origin;
      targetConfirmed := false;
      targetSuspected := false;
    }

    /** Allocates the cone's arrays, places the apex and fills the triangle fan. */
    method Start()
      requires numRays >= 3
      modifies this
      ensures Valid() && fresh(viewConeVertices) && fresh(viewConeUVs) && fresh(viewConeIndices)
      ensures viewConeVertices[0] == Cartesian(0.0, 1.0, 0.0) && viewConeUVs[0] == UV(Finite(0.0), 1.0)
      ensures forall k :: 1 <= k <= numRays ==>
        viewConeVertices[k] == Cartesian(0.0, 0.0, 0.0) && viewConeUVs[k] == UV(Finite(0.0), 0.0)
      ensures viewConeIndices[..] == TriangleIndices(numRays)
      ensures !targetConfirmed && targetSuspected == old(targetSuspected)
      ensures lastPosition == old(lastPosition) && viewConeColor == old(viewConeColor)
    {
      var vertices := new Vertex[numRays + 1](_ => Cartesian(0.0, 0.0, 0.0));
      var uvs := new UV[numRays + 1](_ => UV(Finite(0.0), 0.0));
      var indices := new int[(numRays - 1) * 3];
      vertices[0] := Cartesian(0.0, 1.0, 0.0);
      uvs[0] := UV(Finite(0.0), 1.0);
      FillTriangleFan(indices, numRays);
      viewConeVertices, viewConeUVs, viewConeIndices := vertices, uvs, indices;
      targetConfirmed := false;
    }

    /** The reach of ray i this tick; raycast answers for a world yaw angle, within the view range. */
    function RayReach(currentAngle: real, raycast: real -> Option<real>, i: int): real
      requires numRays >= 2
    {
      RayRange(viewRange, raycast(RayAngle(viewAngle, numRays, i) + currentAngle))
    }

    /** The cone vertex at the end of ray i this tick. */
    function RayEnd(currentAngle: real, raycast: real -> Option<real>, i: int): Vertex
      requires numRays >= 2
    {
      Polar(RayAngle(viewAngle, numRays, i), RayReach(currentAngle, raycast, i))
    }

    /** The texture coordinate at the end of ray i this tick. */
    function RayEndUV(currentAngle: real, raycast: real -> Option<real>, i: int): UV
      requires numRays >= 2
    {
      UV(RangeU(RayReach(currentAngle, raycast, i), viewRange), EdgeV(numRays, i))
    }

    /** Casts every ray of the fan and moves the end of ray i, vertex i + 1, to where it stops. */
    method UpdateViewCone(currentAngle: real, raycast: real -> Option<real>)
      requires Valid()
      modifies viewConeVertices, viewConeUVs
      ensures viewConeVertices[0] == old(viewConeVertices[0]) && viewConeUVs[0] == old(viewConeUVs[0])
      ensures forall k :: 1 <= k <= numRays ==>
        viewConeVertices[k] == RayEnd(currentAngle, raycast, k - 1)
      ensures forall k :: 1 <= k <= numRays ==>
        viewConeUVs[k] == RayEndUV(currentAngle, raycast, k - 1)
    {
      for i := 0 to numRays
        invariant forall k :: 1 <= k <= i ==>
          viewConeVertices[k] == RayEnd(currentAngle, raycast, k - 1)
        invariant forall k :: 1 <= k <= i ==>
          viewConeUVs[k] == RayEndUV(currentAngle, raycast, k - 1)
        invariant viewConeVertices[0] == old(viewConeVertices[0]) && viewConeUVs[0] == old(viewConeUVs[0])
      {
        var localAngle := viewAngle * -0.5 + i as real * (viewAngle / (numRays - 1) as real);
        var range := viewRange;
        var hit := raycast(localAngle + currentAngle);
        if hit.Some? {
          range := hit.value;
        }
        assert localAngle == RayAngle(viewAngle, numRays, i) && range == RayReach(currentAngle, raycast, i);
        viewConeVertices[i + 1] := Polar(localAngle, range);
        var v := 1.0;
        if i == 0 || i == numRays - 1 {
          v := 0.0;
        }
        viewConeUVs[i + 1] := UV(if viewRange == 0.0 then NotFinite else Finite(0.99 * (range / viewRange)), v);
        assert viewConeVertices[i + 1] == RayEnd(currentAngle, raycast, i);
        assert viewConeUVs[i + 1] == RayEndUV(currentAngle, raycast, i);
      }
    }

    /** The sight test: nothing is written yet except clearing the confirmed flag. */
    method UpdateVision()
      requires Valid()
      modifies this`targetConfirmed
      ensures Valid() && !targetConfirmed
    {
      targetConfirmed := false;
    }

    /**
     * Hearing: a confirmed target is suspected; otherwise the player is heard when within
     * hearing range and running, and only then becomes the last known position.
     */
    method UpdateHearing(player: PlayerController, playerPosition: P, agentPosition: P)
      requires Valid()
      modifies this`targetSuspected, this`lastPosition
      ensures Valid()
      ensures targetConfirmed ==> targetSuspected && lastPosition == old(lastPosition)
      ensures !targetConfirmed ==>
        targetSuspected == (distance(playerPosition, agentPosition) <= hearingRange && player.running)
      ensures !targetConfirmed && targetSuspected ==> lastPosition == playerPosition
      ensures !targetSuspected ==> lastPosition == old(lastPosition)
    {
      targetSuspected := false;
      if targetConfirmed {
        targetSuspected := true;
        return;
      }
      if distance(playerPosition, agentPosition) > hearingRange {
        return;
      }
      if !player.IsRunning() {
        return;
      }
      lastPosition := playerPosition;
      targetSuspected := true;
    }

    /** One tick: view cone, then vision, then hearing (the tint fade is presentation). */
    method Update(currentAngle: real, raycast: real -> Option<real>,
                  player: PlayerController, playerPosition: P, agentPosition: P)
      requires Valid()
      modifies this, viewConeVertices, viewConeUVs
      ensures Valid() && viewConeVertices == old(viewConeVertices) && viewConeUVs == old(viewConeUVs)
      ensures viewConeIndices == old(viewConeIndices) && viewConeColor == old(viewConeColor)
      ensures viewConeVertices[0] == old(viewConeVertices[0]) && viewConeUVs[0] == old(viewConeUVs[0])
      ensures forall k :: 1 <= k <= numRays ==>
        viewConeVertices[k] == RayEnd(currentAngle, raycast, k - 1)
      ensures forall k :: 1 <= k <= numRays ==>
        viewConeUVs[k] == RayEndUV(currentAngle, raycast, k - 1)
      ensures !targetConfirmed
      ensures targetSuspected == (distance(playerPosition, agentPosition) <= hearingRange && player.running)
      ensures lastPosition == if targetSuspected then playerPosition else old(lastPosition)
    {
      UpdateViewCone(currentAngle, raycast);
      UpdateVision();
      UpdateHearing(player, playerPosition, agentPosition);
    }

    method SetViewConeColor(color: Color)
      modifies this`viewConeColor
      ensures viewConeColor == color
    {
      viewConeColor := color;
    }

    function HasConfirmedTarget(): (confirmed: bool)
      reads this
      ensures confirmed == targetConfirmed
    {
      targetConfirmed
    }

    function HasSuspectedTarget(): (suspected: bool)
      reads this
      ensures suspected == targetSuspected
    {
      targetSuspected
    }

    function GetLastPosition(): (position: P)
      reads this
      ensures position == lastPosition
    {
      lastPosition
    }
  }
}
