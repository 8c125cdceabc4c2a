/**
  `SpriteBatch2D`: a fixed-capacity quad accumulator. `Begin` resets the
  sprite counter, each `Draw` writes four vertices into the next slot of a
  preallocated vertex array, and `End` submits the pending quads in one
  flush. The OpenGL side of a flush (binding, buffer upload, the indexed
  draw) is recorded as a `FlushEvent` in a ghost log; every public call is
  recorded in a second ghost log, `calls`, which the render passes are
  specified against.
*/
module Batching {
  import opened Wrappers
  import opened Geometry
  import opened Textures

  const MaxSprites: int := 1000
  const VerticesPerSprite: int := 4
  const IndicesPerSprite: int := 6

  datatype Vertex = Vertex(position: Vec2, texCoord: Vec2, color: Vec4)

  /** `default(Vertex)`, the content of a freshly allocated vertex array. */
  const DefaultVertex: Vertex := Vertex(Zero2, Zero2, Vec4(0.0, 0.0, 0.0, 0.0))

  /**
    One public call on a batch. Both `Draw` overloads are `DrawCall`s: the
    plain one with `source == None`, the atlas one with `Some(source)`.
  */
  datatype BatchCall =
    | BeginCall(mvp: Mat4)
    | DrawCall(texture: Texture, position: Vec2, size: Vec2, source: Option<Rect>,
               color: Vec4, origin: Vec2, rotation: Angle)
    | EndCall(texture: Texture)

  /**
    One submission to the GPU: `texture` bound, the first
    `spriteCount * 4` vertices uploaded, `spriteCount * 6` indices drawn
    with `mvp` as the shader's matrix.
  */
  datatype FlushEvent = FlushEvent(texture: Texture, spriteCount: int, mvp: Mat4)
  {
    function VertexCount(): int { spriteCount * VerticesPerSprite }
    function IndexCount(): int { spriteCount * IndicesPerSprite }
  }

  /** Holder of the process-wide `TotalDrawCallsThisFrame` diagnostics counter. */
  class DrawCallCounter {
    var totalDrawCallsThisFrame: int

    constructor ()
      ensures totalDrawCallsThisFrame == 0
    {
      totalDrawCallsThisFrame := 0;
    }
  }

  // ---------------------------------------------------------------------
  // The static index table

  /** The vertex offset, within its quad, of the `j`-th of a quad's six indices. */
  function IndexPattern(j: int): int
    requires 0 <= j < IndicesPerSprite
  {
    if j == 0 then 0 else if j == 1 then 1 else if j == 2 then 2
    else if j == 3 then 2 else if j == 4 then 3 else 0
  }

  /** The value `GenerateIndices` stores at position `k` of the index array. */
  function IndexAt(k: int): int
    requires 0 <= k
  {
    VerticesPerSprite * (k / IndicesPerSprite) + IndexPattern(k % IndicesPerSprite)
  }

  ghost predicate IndexTable(s: seq<int>)
  {
    |s| == MaxSprites * IndicesPerSprite &&
    forall k :: 0 <= k < |s| ==> s[k] == IndexAt(k)
  }

  lemma IndexAtSprite(i: int, j: int)
    requires 0 <= i && 0 <= j < IndicesPerSprite
    ensures IndexAt(IndicesPerSprite * i + j) == VerticesPerSprite * i + IndexPattern(j)
  {
    var k := IndicesPerSprite * i + j;
    assert k / IndicesPerSprite == i && k % IndicesPerSprite == j;
  }

  /** Sprite `i` is drawn as the two triangles (4i, 4i+1, 4i+2) and (4i+2, 4i+3, 4i). */
  lemma IndexTableSprite(s: seq<int>, i: int)
    requires IndexTable(s) && 0 <= i < MaxSprites
    ensures s[6 * i..6 * i + 6] == [4 * i, 4 * i + 1, 4 * i + 2, 4 * i + 2, 4 * i + 3, 4 * i]
  {
    var b := 6 * i;
    IndexAtSprite(i, 0);
    IndexAtSprite(i, 1);
    IndexAtSprite(i, 2);
    IndexAtSprite(i, 3);
    IndexAtSprite(i, 4);
    IndexAtSprite(i, 5);
    assert s[b] == 4 * i && s[b + 1] == 4 * i + 1 && s[b + 2] == 4 * i + 2;
    assert s[b + 3] == 4 * i + 2 && s[b + 4] == 4 * i + 3 && s[b + 5] == 4 * i;
  }

  /** Every index addresses a vertex of the vertex array. */
  lemma IndexTableBounds(s: seq<int>, k: int)
    requires IndexTable(s) && 0 <= k < |s|
    ensures 0 <= s[k] < MaxSprites * VerticesPerSprite
  {
    var i, j := k / IndicesPerSprite, k % IndicesPerSprite;
    assert k == IndicesPerSprite * i + j;
    IndexAtSprite(i, j);
  }

  // ---------------------------------------------------------------------
  // The four vertices of one quad

  /** Corner `k` of the unit quad, in the order (0,0), (1,0), (1,1), (0,1). */
  function QuadCorner(k: int): Vec2
    requires 0 <= k < 4
  {
    if k == 0 then Vec2(0.0, 0.0) else if k == 1 then Vec2(1.0, 0.0)
    else if k == 2 then Vec2(1.0, 1.0) else Vec2(0.0, 1.0)
  }

  /**
    The per-sprite model matrix
    `Translation(-origin) * Scale(size) * RotationZ(rotation) * Translation(position)`.
  */
  function ModelMatrix(position: Vec2, size: Vec2, origin: Vec2, rotation: Angle): Mat4
  {
    MatMul(MatMul(MatMul(Translation(-origin.x, -origin.y, 0.0), Scaling(size.x, size.y, 1.0)),
                  RotationZ(rotation)),
           Translation(position.x, position.y, 0.0))
  }

  /** The texture coordinate of corner `k` for the atlas overload. */
  function AtlasUV(k: int, texture: Texture, source: Rect): Vec2
    requires 0 <= k < 4
  {
    var w, h := texture.width as real, texture.height as real;
    if k == 0 then Vec2(source.x / w, source.y / h)
    else if k == 1 then Vec2((source.x + source.width) / w, source.y / h)
    else if k == 2 then Vec2((source.x + source.width) / w, (source.y + source.height) / h)
    else Vec2(source.x / w, (source.y + source.height) / h)
  }

  /** The texture coordinate of corner `k`: the unit square, or the atlas region. */
  function QuadUV(k: int, texture: Texture, source: Option<Rect>): Vec2
    requires 0 <= k < 4
  {
    match source
    case None => QuadCorner(k)
    case Some(r) => AtlasUV(k, texture, r)
  }

  /** Vertex `k` of the quad a draw call writes. */
  function QuadVertex(d: BatchCall, k: int): Vertex
    requires d.DrawCall? && 0 <= k < 4
  {
    Vertex(TransformPoint(QuadCorner(k), ModelMatrix(d.position, d.size, d.origin, d.rotation)),
           QuadUV(k, d.texture, d.source),
           d.color)
  }

  function Quad(d: BatchCall): seq<Vertex>
    requires d.DrawCall?
  {
    [QuadVertex(d, 0), QuadVertex(d, 1), QuadVertex(d, 2), QuadVertex(d, 3)]
  }

  /** All four vertices carry the call's colour; the plain overload maps the whole texture. */
  lemma QuadColorsAndPlainUVs(d: BatchCall)
    requires d.DrawCall?
    ensures |Quad(d)| == VerticesPerSprite
    ensures forall k :: 0 <= k < 4 ==> Quad(d)[k].color == d.color
    ensures d.source.None? ==>
              Quad(d)[0].texCoord == Vec2(0.0, 0.0) && Quad(d)[1].texCoord == Vec2(1.0, 0.0) &&
              Quad(d)[2].texCoord == Vec2(1.0, 1.0) && Quad(d)[3].texCoord == Vec2(0.0, 1.0)
  {
  }

  /**
    The atlas overload maps corner `k` of the quad to the matching corner of
    the source region, in texture-normalised units.
  */
  lemma AtlasUVIsRegionCorner(d: BatchCall, k: int)
    requires d.DrawCall? && d.source.Some? && 0 <= k < 4
    ensures var r, q := d.source.value, QuadCorner(k);
            Quad(d)[k].texCoord == Vec2((r.x + q.x * r.width) / d.texture.width as real,
                                        (r.y + q.y * r.height) / d.texture.height as real)
  {
  }

  /**
    The model matrix in closed form: subtract the origin, scale by the size
    (so the origin is in unit-quad units, not pixels), rotate, translate.
  */
  lemma ModelMatrixClosedForm(p: Vec2, position: Vec2, size: Vec2, origin: Vec2, rotation: Angle)
    ensures TransformPoint(p, ModelMatrix(position, size, origin, rotation))
         == Add(Rotate(Mul(Sub(p, origin), size), rotation), position)
  {
    var t0 := Translation(-origin.x, -origin.y, 0.0);
    var sc := Scaling(size.x, size.y, 1.0);
    var r := RotationZ(rotation);
    var t1 := Translation(position.x, position.y, 0.0);
    TranslationScalingRotationArePlanar(-origin.x, -origin.y, 0.0, rotation);
    TranslationScalingRotationArePlanar(size.x, size.y, 1.0, rotation);
    TranslationScalingRotationArePlanar(position.x, position.y, 0.0, rotation);
    TransformPointMatMul(p, t0, sc);
    TransformPointMatMul(p, MatMul(t0, sc), r);
    TransformPointMatMul(p, MatMul(MatMul(t0, sc), r), t1);
  }

  /** With rotation 0, corner k lands at (q_k - origin) * size + position. */
  lemma ZeroRotationCorners(d: BatchCall, k: int)
    requires d.DrawCall? && d.rotation == NoRotation && 0 <= k < 4
    ensures Quad(d)[k].position == Add(Mul(Sub(QuadCorner(k), d.origin), d.size), d.position)
  {
    ModelMatrixClosedForm(QuadCorner(k), d.position, d.size, d.origin, d.rotation);
    RotateByZero(Mul(Sub(QuadCorner(k), d.origin), d.size));
  }

  /** The average of a quad's four corner positions. */
  function Center(q: seq<Vertex>): Vec2
    requires |q| == VerticesPerSprite
  {
    Vec2((q[0].position.x + q[1].position.x + q[2].position.x + q[3].position.x) / 4.0,
         (q[0].position.y + q[1].position.y + q[2].position.y + q[3].position.y) / 4.0)
  }

  /** The centre of a drawn quad: the unit square's centre (0.5, 0.5) sent through the model transform. */
  lemma QuadCenter(d: BatchCall)
    requires d.DrawCall?
    ensures Center(Quad(d)) == Add(Rotate(Mul(Sub(Vec2(0.5, 0.5), d.origin), d.size), d.rotation), d.position)
  {
    forall k | 0 <= k < 4
      ensures Quad(d)[k].position == Add(Rotate(Mul(Sub(QuadCorner(k), d.origin), d.size), d.rotation), d.position)
    {
      ModelMatrixClosedForm(QuadCorner(k), d.position, d.size, d.origin, d.rotation);
    }
    var c, sn := d.rotation.cos, d.rotation.sin;
    var u0, u1 := (0.0 - d.origin.x) * d.size.x, (1.0 - d.origin.x) * d.size.x;
    var v0, v1 := (0.0 - d.origin.y) * d.size.y, (1.0 - d.origin.y) * d.size.y;
    assert (u0 + u1) / 2.0 == (0.5 - d.origin.x) * d.size.x;
    assert (v0 + v1) / 2.0 == (0.5 - d.origin.y) * d.size.y;
    assert ((u0 * c - v0 * sn) + (u1 * c - v0 * sn) + (u1 * c - v1 * sn) + (u0 * c - v1 * sn)) / 4.0
        == (u0 + u1) / 2.0 * c - (v0 + v1) / 2.0 * sn;
    assert ((u0 * sn + v0 * c) + (u1 * sn + v0 * c) + (u1 * sn + v1 * c) + (u0 * sn + v1 * c)) / 4.0
        == (u0 + u1) / 2.0 * sn + (v0 + v1) / 2.0 * c;
  }

  /**
    For an unrotated quad of non-degenerate size, the centre is at
    `position` exactly when the origin is (0.5, 0.5), whatever the size.
  */
  lemma CenteredIffHalfOrigin(d: BatchCall)
    requires d.DrawCall? && d.rotation == NoRotation && d.size.x != 0.0 && d.size.y != 0.0
    ensures Center(Quad(d)) == d.position <==> d.origin == Vec2(0.5, 0.5)
  {
    QuadCenter(d);
    RotateByZero(Mul(Sub(Vec2(0.5, 0.5), d.origin), d.size));
    OffsetVanishesIff(Center(Quad(d)), d.position, d.origin, d.size);
  }

  lemma RotateByZero(p: Vec2)
    ensures Rotate(p, NoRotation) == p
  {
  }

  lemma OffsetVanishesIff(center: Vec2, position: Vec2, origin: Vec2, size: Vec2)
    requires size.x != 0.0 && size.y != 0.0
    requires center == Add(Mul(Sub(Vec2(0.5, 0.5), origin), size), position)
    ensures center == position <==> origin == Vec2(0.5, 0.5)
  {
    var u := Sub(Vec2(0.5, 0.5), origin);
    if center == position {
      ZeroFactor(u.x, size.x);
      ZeroFactor(u.y, size.y);
    }
  }

  lemma ZeroFactor(a: real, b: real)
    requires a * b == 0.0 && b != 0.0
    ensures a == 0.0
  {
  }

  /**
    An origin of half the size in pixels (`SetOriginToCenter`) centres an
    unrotated quad on its position only when the size is (1, 1).
  */
  lemma HalfSizeOriginCentersOnlyUnitQuads(d: BatchCall)
    requires d.DrawCall? && d.rotation == NoRotation && d.size.x != 0.0 && d.size.y != 0.0
    requires d.origin == Scale(d.size, 0.5)
    ensures Center(Quad(d)) == d.position <==> d.size == One2
  {
    CenteredIffHalfOrigin(d);
  }

  /** `after` is `before` with `quad` written over slot `slot`, and nothing else changed. */
  ghost predicate QuadWritten(before: seq<Vertex>, after: seq<Vertex>, slot: int, quad: seq<Vertex>)
  {
    |after| == |before| && |quad| == VerticesPerSprite &&
    0 <= slot && VerticesPerSprite * slot + VerticesPerSprite <= |after| &&
    after[VerticesPerSprite * slot..VerticesPerSprite * slot + VerticesPerSprite] == quad &&
    after[..VerticesPerSprite * slot] == before[..VerticesPerSprite * slot] &&
    after[VerticesPerSprite * slot + VerticesPerSprite..] == before[VerticesPerSprite * slot + VerticesPerSprite..]
  }

  /** The flush `Draw` issues first when the batch is full (and only then). */
  function CapacityFlush(count: int, texture: Texture, mvp: Mat4): seq<FlushEvent>
  {
    if count >= MaxSprites then [FlushEvent(texture, count, mvp)] else []
  }

  class SpriteBatch2D {
    const vertices: array<Vertex>
    const indices: array<int>
    /** Where `End` counts its flushes (`TotalDrawCallsThisFrame`). */
    const counter: DrawCallCounter
    var spriteCount: int
    var mvp: Mat4
    /** Every public call received, in order. */
    ghost var calls: seq<BatchCall>
    /** Every submission to the GPU, in order. */
    ghost var flushes: seq<FlushEvent>

    ghost predicate Valid()
      reads this, indices
    {
      vertices.Length == MaxSprites * VerticesPerSprite &&
      IndexTable(indices[..]) &&
      0 <= spriteCount <= MaxSprites
    }

    /** The quads accumulated since `Begin`. */
    ghost function Pending(): seq<Vertex>
      reads this, vertices, indices
      requires Valid()
    {
      vertices[..VerticesPerSprite * spriteCount]
    }

    constructor (counter: DrawCallCounter)
      ensures Valid() && fresh(vertices) && fresh(indices)
      ensures this.counter == counter && spriteCount == 0 && mvp == ZeroMatrix
      ensures calls == [] && flushes == []
    {
      this.counter := counter;
      vertices := new Vertex[MaxSprites * VerticesPerSprite](_ => DefaultVertex);
      indices := new int[MaxSprites * IndicesPerSprite];
      spriteCount := 0;
      mvp := ZeroMatrix;
      calls := [];
      flushes := [];
      new;
      GenerateIndices();
    }

    /** Fills the static index table: six indices (two triangles) per sprite slot. */
    method GenerateIndices()
      requires indices.Length == MaxSprites * IndicesPerSprite
      modifies indices
      ensures IndexTable(indices[..])
    {
      for i := 0 to MaxSprites
        invariant forall k :: 0 <= k < IndicesPerSprite * i ==> indices[k] == IndexAt(k)
      {
        var offset := i * VerticesPerSprite;
        var index := i * IndicesPerSprite;
        indices[index + 0] := offset + 0;
        indices[index + 1] := offset + 1;
        indices[index + 2] := offset + 2;
        indices[index + 3] := offset + 2;
        indices[index + 4] := offset + 3;
        indices[index + 5] := offset + 0;
        IndexAtSprite(i, 0); IndexAtSprite(i, 1); IndexAtSprite(i, 2);
        IndexAtSprite(i, 3); IndexAtSprite(i, 4); IndexAtSprite(i, 5);
      }
    }

    /** Starts a batch: the sprite counter goes back to 0 and `m` becomes the matrix. */
    method Begin(m: Mat4)
      requires Valid()
      modifies this
      ensures Valid() && spriteCount == 0 && mvp == m
      ensures calls == old(calls) + [BeginCall(m)] && flushes == old(flushes)
    {
      calls := calls + [BeginCall(m)];
      spriteCount := 0;
      mvp := m;
    }

    /**
      The plain overload: the whole texture. Returns false where the source
      throws `IndexOutOfRangeException`: the capacity flush leaves the
      counter at `MaxSprites`, so the first vertex write is out of bounds.
    */
    method Draw(texture: Texture, position: Vec2, size: Vec2, color: Vec4,
                origin: Vec2, rotation: Angle) returns (ok: bool)
      requires Valid()
      modifies this, vertices
      ensures Valid() && mvp == old(mvp)
      ensures calls == old(calls) + [DrawCall(texture, position, size, None, color, origin, rotation)]
      ensures flushes == old(flushes) + CapacityFlush(old(spriteCount), texture, mvp)
      ensures ok <==> old(spriteCount) < MaxSprites
      ensures ok ==> spriteCount == old(spriteCount) + 1 &&
                     QuadWritten(old(vertices[..]), vertices[..], old(spriteCount),
                                 Quad(DrawCall(texture, position, size, None, color, origin, rotation))) &&
                     Pending() == old(Pending()) + Quad(DrawCall(texture, position, size, None, color, origin, rotation))
      ensures !ok ==> spriteCount == old(spriteCount) && vertices[..] == old(vertices[..])
    {
      ok := Append(DrawCall(texture, position, size, None, color, origin, rotation));
    }

    /** The atlas overload: the region `source` of the texture. Fails like `Draw`. */
    method DrawRegion(texture: Texture, position: Vec2, size: Vec2, source: Rect, color: Vec4,
                      origin: Vec2, rotation: Angle) returns (ok: bool)
      requires Valid()
      modifies this, vertices
      ensures Valid() && mvp == old(mvp)
      ensures calls == old(calls) + [DrawCall(texture, position, size, Some(source), color, origin, rotation)]
      ensures flushes == old(flushes) + CapacityFlush(old(spriteCount), texture, mvp)
      ensures ok <==> old(spriteCount) < MaxSprites
      ensures ok ==> spriteCount == old(spriteCount) + 1 &&
                     QuadWritten(old(vertices[..]), vertices[..], old(spriteCount),
                                 Quad(DrawCall(texture, position, size, Some(source), color, origin, rotation))) &&
                     Pending() == old(Pending()) + Quad(DrawCall(texture, position, size, Some(source), color, origin, rotation))
      ensures !ok ==> spriteCount == old(spriteCount) && vertices[..] == old(vertices[..])
    {
      ok := Append(DrawCall(texture, position, size, Some(source), color, origin, rotation));
    }

    /** The body the two `Draw` overloads share. */
    method Append(d: BatchCall) returns (ok: bool)
      requires Valid() && d.DrawCall?
      modifies this, vertices
      ensures Valid() && mvp == old(mvp)
      ensures calls == old(calls) + [d]
      ensures flushes == old(flushes) + CapacityFlush(old(spriteCount), d.texture, mvp)
      ensures ok <==> old(spriteCount) < MaxSprites
      ensures ok ==> spriteCount == old(spriteCount) + 1 &&
                     QuadWritten(old(vertices[..]), vertices[..], old(spriteCount), Quad(d)) &&
                     Pending() == old(Pending()) + Quad(d)
      ensures !ok ==> spriteCount == old(spriteCount) && vertices[..] == old(vertices[..])
    {
      calls := calls + [d];
      if spriteCount >= MaxSprites {
        Flush(d.texture);
      }
      var baseIndex := spriteCount * VerticesPerSprite;
      if baseIndex >= vertices.Length {
        // the bounds check of the first vertex write fails
        return false;
      }
      WriteQuad(baseIndex, d);
      spriteCount := spriteCount + 1;
      assert vertices[..VerticesPerSprite * spriteCount]
          == vertices[..baseIndex] + vertices[baseIndex..baseIndex + VerticesPerSprite];
      ok := true;
    }

    /** The loop writing the four vertices of `d` from `baseIndex` on. */
    method WriteQuad(baseIndex: int, d: BatchCall)
      requires d.DrawCall? && 0 <= baseIndex && baseIndex + VerticesPerSprite <= vertices.Length
      modifies vertices
      ensures vertices[baseIndex..baseIndex + VerticesPerSprite] == Quad(d)
      ensures vertices[..baseIndex] == old(vertices[..baseIndex])
      ensures vertices[baseIndex + VerticesPerSprite..] == old(vertices[baseIndex + VerticesPerSprite..])
    {
      for i := 0 to VerticesPerSprite
        invariant forall j :: 0 <= j < i ==> vertices[baseIndex + j] == QuadVertex(d, j)
        invariant forall j :: 0 <= j < vertices.Length && !(baseIndex <= j < baseIndex + i) ==>
                    vertices[j] == old(vertices[j])
      {
        vertices[baseIndex + i] := QuadVertex(d, i);
      }
      assert vertices[baseIndex..baseIndex + VerticesPerSprite] == Quad(d);
    }

    /**
      Ends the batch: when anything is pending, one flush with `texture`
      and one more draw call this frame. The counter is NOT reset.
    */
    method End(texture: Texture)
      requires Valid()
      modifies this, counter
      ensures Valid() && spriteCount == old(spriteCount) && mvp == old(mvp)
      ensures calls == old(calls) + [EndCall(texture)]
      ensures flushes == old(flushes) +
                         (if old(spriteCount) == 0 then [] else [FlushEvent(texture, spriteCount, mvp)])
      ensures counter.totalDrawCallsThisFrame ==
              old(counter.totalDrawCallsThisFrame) + (if old(spriteCount) == 0 then 0 else 1)
    {
      calls := calls + [EndCall(texture)];
      if spriteCount == 0 {
        return;
      }
      Flush(texture);
      counter.totalDrawCallsThisFrame := counter.totalDrawCallsThisFrame + 1;
    }

    /** Submits the first `spriteCount` quads with `texture` bound. */
    method Flush(texture: Texture)
      modifies this`flushes
      ensures flushes == old(flushes) + [FlushEvent(texture, spriteCount, mvp)]
    {
      flushes := flushes + [FlushEvent(texture, spriteCount, mvp)];
    }
  }
}
