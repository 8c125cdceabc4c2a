/**
  The ECS components and `Entity`. Components are objects whose properties
  the game and the systems update in place. An entity always has a
  transform; a sprite and an animation are optional slots (the typed
  component bag `Add`/`Get` is reduced to these slots).
*/
module Components {
  import opened Wrappers
  import opened Geometry
  import opened Textures
  import opened Animation

  /** What a renderer reads from a transform. */
  datatype TransformView = TransformView(position: Vec2, rotation: Angle, scale: Vec2)

  /** What a renderer reads from a sprite. */
  datatype SpriteView = SpriteView(texture: Texture, size: Vec2, color: Vec4, origin: Vec2,
                                   sourceRect: Option<Rect>)

  class TransformComponent {
    var position: Vec2
    var rotation: Angle
    var scale: Vec2

    constructor ()
      ensures position == Zero2 && rotation == NoRotation && scale == One2
    {
      position := Zero2;
      rotation := NoRotation;
      scale := One2;
    }

    function View(): TransformView
      reads this
    {
      TransformView(position, rotation, scale)
    }
  }

  class SpriteComponent {
    var texture: Texture
    var size: Vec2
    var color: Vec4
    var origin: Vec2
    /** The atlas region to draw, when there is one (written by `AnimationSystem`). */
    var sourceRect: Option<Rect>

    /** Stores the texture reference; opaque white, zero size and origin, no region. */
    constructor (texture: Texture)
      ensures this.texture == texture && size == Zero2 && color == One4 && origin == Zero2
      ensures sourceRect == None
    {
      this.texture := texture;
      size := Zero2;
      color := One4;
      origin := Zero2;
      sourceRect := None;
    }

    function View(): SpriteView
      reads this
    {
      SpriteView(texture, size, color, origin, sourceRect)
    }

    /** Half the size; the same origin as the ratio (0.5, 0.5). Nothing else changes. */
    method SetOriginToCenter()
      modifies this
      ensures origin == Scale(size, 0.5)
      ensures origin == Mul(size, Vec2(0.5, 0.5))
      ensures texture == old(texture) && size == old(size) && color == old(color)
      ensures sourceRect == old(sourceRect)
    {
      origin := Scale(size, 0.5);
    }

    /** The size scaled componentwise by `ratio`. Nothing else changes. */
    method SetOriginByRatio(ratio: Vec2)
      modifies this
      ensures origin == Mul(size, ratio)
      ensures texture == old(texture) && size == old(size) && color == old(color)
      ensures sourceRect == old(sourceRect)
    {
      origin := Mul(size, ratio);
    }
  }

  class Entity {
    const transform: TransformComponent
    var sprite: SpriteComponent?
    var animation: AnimationComponent?

    constructor ()
      ensures fresh(transform) && transform.View() == TransformView(Zero2, NoRotation, One2)
      ensures sprite == null && animation == null
    {
      transform := new TransformComponent();
      sprite := null;
      animation := null;
    }
  }
}
