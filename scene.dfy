/**
  `Scene`: the insertion-ordered list of entities, the two-component query
  the systems run over it (an order-preserving filter), and the immediate
  `Render` that hands each sprite to the non-batched renderer.
*/
module Scenes {
  import opened Wrappers
  import opened Geometry
  import opened Textures
  import opened Components
  import opened Cameras
  import opened Seqs

  /** The objects a query over `es` reads: the entities and their transforms and sprites. */
  ghost function Heap(es: seq<Entity>): set<object>
    reads set e | e in es
  {
    (set e | e in es :: e as object) +
    (set e | e in es :: e.transform as object) +
    (set e | e in es && e.sprite != null :: e.sprite as object)
  }

  /** A (Transform, Sprite) query row, as read when the query runs. */
  datatype Renderable = Renderable(transform: TransformView, sprite: SpriteView)

  /** The entities the query yields: those with a sprite, in list order. */
  function WithSprite(es: seq<Entity>): (r: seq<Entity>)
    reads set e | e in es
    ensures |r| <= |es|
    ensures forall i :: 0 <= i < |r| ==> r[i] in es && r[i].sprite != null
    ensures forall i :: 0 <= i < |es| && es[i].sprite != null ==> es[i] in r
  {
    if es == [] then []
    else
      var e := es[|es| - 1];
      WithSprite(es[..|es| - 1]) + (if e.sprite != null then [e] else [])
  }

  /** The row of an entity that has a sprite. */
  function RowOf(e: Entity): Renderable
    reads e, e.transform, e.sprite
    requires e.sprite != null
  {
    Renderable(e.transform.View(), e.sprite.View())
  }

  /** `Query<TransformComponent, SpriteComponent>()`. */
  function Query(es: seq<Entity>): (rs: seq<Renderable>)
    reads Heap(es)
    ensures |rs| == |WithSprite(es)|
    ensures forall i :: 0 <= i < |rs| ==> rs[i] == RowOf(WithSprite(es)[i])
  {
    if es == [] then []
    else
      var e := es[|es| - 1];
      Query(es[..|es| - 1]) + (if e.sprite != null then [RowOf(e)] else [])
  }

  /** Filtering keeps list order: the entities with a sprite of a concatenation, concatenated. */
  lemma {:induction false} WithSpriteAppend(a: seq<Entity>, b: seq<Entity>)
    ensures WithSprite(a + b) == WithSprite(a) + WithSprite(b)
  {
    if b == [] {
      ConcatEmpty(a);
      ConcatEmpty(WithSprite(a));
    } else {
      WithSpriteAppend(a, b[..|b| - 1]);
      ConcatPrefix(a, b);
    }
  }

  /** The query keeps list order: querying a concatenation concatenates the results. */
  lemma {:induction false} QueryAppend(a: seq<Entity>, b: seq<Entity>)
    ensures Query(a + b) == Query(a) + Query(b)
  {
    if b == [] {
      ConcatEmpty(a);
      ConcatEmpty(Query(a));
    } else {
      QueryAppend(a, b[..|b| - 1]);
      ConcatPrefix(a, b);
    }
  }

  /**
    A call of the undeclared 7-argument `SpriteRenderer.Draw`: texture,
    position, size, rotation, origin, colour, matrix.
  */
  datatype RendererDraw = RendererDraw(texture: Texture, position: Vec2, size: Vec2, rotation: Angle,
                                       origin: Vec2, color: Vec4, mvp: Mat4)

  /** The immediate draw of one row: size is sprite size times transform scale. */
  function ImmediateDraw(r: Renderable, m: Mat4): (d: RendererDraw)
    ensures d.texture == r.sprite.texture && d.size == Mul(r.sprite.size, r.transform.scale)
    ensures d.position == r.transform.position && d.rotation == r.transform.rotation
    ensures d.origin == r.sprite.origin && d.color == r.sprite.color && d.mvp == m
  {
    RendererDraw(r.sprite.texture, r.transform.position, Mul(r.sprite.size, r.transform.scale),
                 r.transform.rotation, r.sprite.origin, r.sprite.color, m)
  }

  function ImmediateDraws(rs: seq<Renderable>, m: Mat4): (ds: seq<RendererDraw>)
    ensures |ds| == |rs|
    ensures forall i :: 0 <= i < |rs| ==> ds[i] == ImmediateDraw(rs[i], m)
  {
    if rs == [] then [] else ImmediateDraws(rs[..|rs| - 1], m) + [ImmediateDraw(rs[|rs| - 1], m)]
  }

  class Scene {
    var entities: seq<Entity>

    constructor ()
      ensures entities == []
    {
      entities := [];
    }

    /** Appends; the earlier entities keep their order. */
    method AddEntity(entity: Entity)
      modifies this
      ensures entities == old(entities) + [entity]
    {
      entities := entities + [entity];
    }

    /** The entities in insertion order. */
    method GetAllEntities() returns (r: seq<Entity>)
      ensures r == entities
    {
      r := entities;
    }

    /**
      Draws every entity that has a sprite, in list order, with the
      camera's matrix; entities without a sprite are skipped. Returns the
      renderer calls in order.
    */
    method Render(camera: Camera2D) returns (draws: seq<RendererDraw>)
      requires HasArea(camera.State())
      ensures draws == ImmediateDraws(Query(entities), camera.GetMatrix())
    {
      draws := [];
      for i := 0 to |entities|
        invariant draws == ImmediateDraws(Query(entities[..i]), camera.GetMatrix())
      {
        var entity := entities[i];
        assert entities[..i + 1][..i] == entities[..i];
        if entity.sprite == null {
          continue;
        }
        var t := entity.transform;
        var s := entity.sprite;
        draws := draws + [RendererDraw(s.texture, t.position, Mul(s.size, t.scale), t.rotation,
                                       s.origin, s.color, camera.GetMatrix())];
      }
      assert entities[..|entities|] == entities;
    }
  }

  /**
    Adding an entity extends the query by its row when it has a sprite and
    leaves the earlier rows as they were.
  */
  lemma AddEntityExtendsQuery(es: seq<Entity>, e: Entity)
    ensures e.sprite != null ==> Query(es + [e]) == Query(es) + [RowOf(e)]
    ensures e.sprite == null ==> Query(es + [e]) == Query(es)
  {
    assert (es + [e])[..|es|] == es;
  }

  /**
    Entities a, b, c where only a and c have a sprite query to the rows of
    a and c, in that order.
  */
  lemma QueryDeterminism(a: Entity, b: Entity, c: Entity)
    requires a.sprite != null && b.sprite == null && c.sprite != null
    ensures WithSprite([a, b, c]) == [a, c]
    ensures Query([a, b, c]) == [RowOf(a), RowOf(c)]
  {
    assert [a, b, c][..2] == [a, b];
    assert [a, b][..1] == [a];
    assert [a][..0] == [];
    assert WithSprite([a]) == [a];
    assert WithSprite([a, b]) == [a];
  }
}
