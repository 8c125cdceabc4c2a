/**
  `AnimationSystem`: once per frame, every entity that has both an
  animation and a sprite gets one `Update(deltaTime)` on its animation,
  and the animation's current frame is written into the sprite's source
  rectangle, whether or not the animation moved.
*/
module AnimationSystems {
  import opened Wrappers
  import opened Geometry
  import opened Animation
  import opened Components
  import opened Scenes

  /** `Query<AnimationComponent, SpriteComponent>()`: the entities with both, in list order. */
  function Animated(es: seq<Entity>): (r: seq<Entity>)
    reads set e | e in es
    ensures |r| <= |es|
    ensures forall i :: 0 <= i < |r| ==> r[i] in es && r[i].animation != null && r[i].sprite != null
    ensures forall i :: 0 <= i < |es| && es[i].animation != null && es[i].sprite != null ==> es[i] in r
  {
    if es == [] then []
    else
      var e := es[|es| - 1];
      Animated(es[..|es| - 1]) + (if e.animation != null && e.sprite != null then [e] else [])
  }

  /**
    No two queried entities share an animation or a sprite object, so each
    component is updated once.
  */
  ghost predicate Unshared(qs: seq<Entity>)
    reads set e | e in qs
  {
    forall i, j :: 0 <= i < j < |qs| ==>
      qs[i].animation != qs[j].animation && qs[i].sprite != qs[j].sprite
  }

  /** The animation components of the queried entities. */
  ghost function Animations(qs: seq<Entity>): set<object>
    reads set e | e in qs
  {
    set e | e in qs && e.animation != null :: e.animation as object
  }

  /** The sprite components of the queried entities. */
  ghost function Sprites(qs: seq<Entity>): set<object>
    reads set e | e in qs
  {
    set e | e in qs && e.sprite != null :: e.sprite as object
  }

  /** An animation `a` that has taken one step of `dt` from clip `c` and state `p`. */
  ghost predicate Stepped(a: AnimationComponent, c: Clip, p: Playback, dt: real)
    reads a
  {
    a.Valid() && a.ClipOf() == c && a.State() == Step(c, p, dt)
  }

  /**
    A sprite that shows frame `r` of its animation and otherwise holds
    texture, size, colour and origin `v`.
  */
  ghost predicate Shows(s: SpriteComponent, v: SpriteView, r: Rect)
    reads s
  {
    s.View() == v.(sourceRect := Some(r))
  }

  class AnimationSystem {
    constructor ()
    {
    }

    /**
      One `Update(deltaTime)` per queried animation, and its current frame
      (the empty rectangle when it has no frames) into the sprite's source
      rectangle, even when the animation is finished or did not move. The
      sprite's other fields and the clips are left as they were.
    */
    method Update(deltaTime: real, scene: Scene)
      requires Unshared(Animated(scene.entities))
      requires forall e :: e in Animated(scene.entities) ==> e.animation.Valid()
      modifies Animations(Animated(scene.entities)), Sprites(Animated(scene.entities))
      ensures Animated(scene.entities) == old(Animated(scene.entities))
      ensures forall i :: 0 <= i < |Animated(scene.entities)| ==>
                var e := Animated(scene.entities)[i];
                Stepped(e.animation, old(e.animation.ClipOf()), old(e.animation.State()), deltaTime) &&
                Shows(e.sprite, old(e.sprite.View()), FrameOf(e.animation.ClipOf(), e.animation.State()))
    {
      var qs := Animated(scene.entities);
      StepAll(deltaTime, qs);
    }

    /** The loop over the query result `qs`. */
    method StepAll(deltaTime: real, qs: seq<Entity>)
      requires forall i :: 0 <= i < |qs| ==> qs[i].animation != null && qs[i].sprite != null
      requires Unshared(qs)
      requires forall e :: e in qs ==> e.animation.Valid()
      modifies Animations(qs), Sprites(qs)
      ensures forall i :: 0 <= i < |qs| ==>
                Stepped(qs[i].animation, old(qs[i].animation.ClipOf()), old(qs[i].animation.State()), deltaTime) &&
                Shows(qs[i].sprite, old(qs[i].sprite.View()),
                      FrameOf(qs[i].animation.ClipOf(), qs[i].animation.State()))
    {
      ghost var before := seq(|qs|, j requires 0 <= j < |qs| && qs[j].animation != null && qs[j].sprite != null
                                    reads if 0 <= j < |qs| then {qs[j], qs[j].animation, qs[j].sprite} else {} =>
                                    Snap(qs[j]));
      for i := 0 to |qs|
        invariant Progress(qs, before, i, deltaTime)
      {
        StepAt(deltaTime, qs, before, i);
      }
    }

    /** The `i`-th iteration: the entities before `i` are done, the others untouched. */
    method StepAt(deltaTime: real, qs: seq<Entity>, ghost before: seq<Snapshot>, i: int)
      requires Unshared(qs) && 0 <= i < |qs| && Progress(qs, before, i, deltaTime)
      modifies Animations(qs), Sprites(qs)
      ensures Progress(qs, before, i + 1, deltaTime)
    {
      assert qs[i].animation in Animations(qs) && qs[i].sprite in Sprites(qs);
      assert forall j :: 0 <= j < |qs| && j != i ==>
               qs[j].animation != qs[i].animation && qs[j].sprite != qs[i].sprite;
      StepOne(deltaTime, qs[i]);
    }

    /** The loop body: one `Update` of the animation, then its frame into the sprite. */
    method StepOne(deltaTime: real, e: Entity)
      requires e.animation != null && e.sprite != null && e.animation.Valid()
      modifies e.animation, e.sprite
      ensures Done(e, old(Snap(e)), deltaTime)
    {
      var animation := e.animation;
      var sprite := e.sprite;
      animation.Update(deltaTime);
      sprite.sourceRect := Some(animation.GetCurrentFrame());
    }
  }

  /** What `Update` reads of an entity and may change: its clip, its playback state, its sprite. */
  datatype Snapshot = Snapshot(clip: Clip, state: Playback, view: SpriteView)

  ghost function Snap(e: Entity): Snapshot
    reads e, e.animation, e.sprite
    requires e.animation != null && e.sprite != null
  {
    Snapshot(e.animation.ClipOf(), e.animation.State(), e.sprite.View())
  }

  /** Entity `e` has been updated: one step from `s`, and its sprite shows the new frame. */
  ghost predicate Done(e: Entity, s: Snapshot, dt: real)
    reads e, e.animation, e.sprite
  {
    e.animation != null && e.sprite != null && Stepped(e.animation, s.clip, s.state, dt) &&
    Shows(e.sprite, s.view, FrameOf(e.animation.ClipOf(), e.animation.State()))
  }

  /** Entity `e` is still as in `s`. */
  ghost predicate Untouched(e: Entity, s: Snapshot)
    reads e, e.animation, e.sprite
  {
    e.animation != null && e.sprite != null && e.animation.Valid() && Snap(e) == s
  }

  /** The first `i` entities of `qs` are done, the rest untouched. */
  ghost predicate Progress(qs: seq<Entity>, before: seq<Snapshot>, i: int, dt: real)
    reads (set e | e in qs), Animations(qs), Sprites(qs)
  {
    |before| == |qs| && 0 <= i <= |qs| &&
    (forall j :: 0 <= j < i ==> Done(qs[j], before[j], dt)) &&
    (forall j :: i <= j < |qs| ==> Untouched(qs[j], before[j]))
  }
}
