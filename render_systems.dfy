/**
  The two batched render passes over a scene.

  `SmartSpriteBatchRenderSystem` groups the (Transform, Sprite) query rows
  by texture reference and runs one Begin / Draw* / End session per group.
  The older `SpriteBatchRenderSystem` runs a single session over all rows
  and closes it with the first row's texture, whatever the others use.

  Both read the camera matrix once. A `Draw` that overruns the batch
  (a group of more than `MaxSprites` rows) throws in the source; here the
  pass returns `false` at that point.
*/
module RenderSystems {
  import opened Wrappers
  import opened Geometry
  import opened Textures
  import opened Batching
  import opened Components
  import opened Cameras
  import opened Scenes
  import opened Grouping
  import opened Seqs

  /** The grouping key: the sprite's texture reference. */
  function TextureOf(r: Renderable): Texture
  {
    r.sprite.texture
  }

  /**
    The batch call a row becomes: position and rotation from the
    transform, size the sprite's size times the transform's scale, colour
    and origin from the sprite, and the atlas overload exactly when the
    sprite has a region.
  */
  function DrawCallOf(r: Renderable): (d: BatchCall)
    ensures d.DrawCall? && d.texture == TextureOf(r) && d.source == r.sprite.sourceRect
    ensures d.position == r.transform.position && d.rotation == r.transform.rotation
    ensures d.size == Mul(r.sprite.size, r.transform.scale)
    ensures d.color == r.sprite.color && d.origin == r.sprite.origin
  {
    DrawCall(r.sprite.texture, r.transform.position, Mul(r.sprite.size, r.transform.scale),
             r.sprite.sourceRect, r.sprite.color, r.sprite.origin, r.transform.rotation)
  }

  function DrawCalls(rs: seq<Renderable>): (ds: seq<BatchCall>)
    ensures |ds| == |rs|
    ensures forall i :: 0 <= i < |rs| ==> ds[i] == DrawCallOf(rs[i])
  {
    if rs == [] then [] else DrawCalls(rs[..|rs| - 1]) + [DrawCallOf(rs[|rs| - 1])]
  }

  /** One group's session: `Begin(m)`, its members' draws in query order, `End(texture)`. */
  function GroupCalls(m: Mat4, rs: seq<Renderable>, k: Texture): seq<BatchCall>
  {
    [BeginCall(m)] + DrawCalls(Members(rs, TextureOf, k)) + [EndCall(k)]
  }

  /** The sessions of the groups `ks`, in order. */
  function SmartCalls(m: Mat4, rs: seq<Renderable>, ks: seq<Texture>): seq<BatchCall>
  {
    if ks == [] then [] else SmartCalls(m, rs, ks[..|ks| - 1]) + GroupCalls(m, rs, ks[|ks| - 1])
  }

  /** The flush the `End` of a non-empty group issues. */
  function GroupFlush(m: Mat4, rs: seq<Renderable>, k: Texture): FlushEvent
  {
    FlushEvent(k, |Members(rs, TextureOf, k)|, m)
  }

  function SmartFlushes(m: Mat4, rs: seq<Renderable>, ks: seq<Texture>): (fs: seq<FlushEvent>)
    ensures |fs| == |ks|
    ensures forall g :: 0 <= g < |ks| ==> fs[g] == GroupFlush(m, rs, ks[g])
  {
    if ks == [] then [] else SmartFlushes(m, rs, ks[..|ks| - 1]) + [GroupFlush(m, rs, ks[|ks| - 1])]
  }

  /** None of the groups `ks` is larger than the batch. */
  ghost predicate AllFit(rs: seq<Renderable>, ks: seq<Texture>)
  {
    ks == [] || (AllFit(rs, ks[..|ks| - 1]) && |Members(rs, TextureOf, ks[|ks| - 1])| <= MaxSprites)
  }

  /** No texture group is larger than the batch. */
  ghost predicate GroupsFit(rs: seq<Renderable>)
  {
    AllFit(rs, Keys(rs, TextureOf))
  }

  lemma {:induction false} AllFitIff(rs: seq<Renderable>, ks: seq<Texture>)
    ensures AllFit(rs, ks) <==> forall g :: 0 <= g < |ks| ==> |Members(rs, TextureOf, ks[g])| <= MaxSprites
  {
    if ks != [] {
      AllFitIff(rs, ks[..|ks| - 1]);
    }
  }

  // ---------------------------------------------------------------------
  // Counting the calls of a pass

  /** One more group: its session, its flush and its fit are appended to those of the prefix. */
  lemma GroupStep(m: Mat4, rs: seq<Renderable>, ks: seq<Texture>, g: int,
                  calls0: seq<BatchCall>, flushes0: seq<FlushEvent>)
    requires 0 <= g < |ks|
    ensures calls0 + SmartCalls(m, rs, ks[..g + 1])
         == calls0 + SmartCalls(m, rs, ks[..g]) +
            ([BeginCall(m)] + DrawCalls(Members(rs, TextureOf, ks[g])) + [EndCall(ks[g])])
    ensures flushes0 + SmartFlushes(m, rs, ks[..g + 1])
         == flushes0 + SmartFlushes(m, rs, ks[..g]) + [FlushEvent(ks[g], |Members(rs, TextureOf, ks[g])|, m)]
    ensures AllFit(rs, ks[..g + 1]) <==> AllFit(rs, ks[..g]) && |Members(rs, TextureOf, ks[g])| <= MaxSprites
  {
    PrefixSnoc(ks, g);
    assert SmartCalls(m, rs, ks[..g + 1]) == SmartCalls(m, rs, ks[..g]) + GroupCalls(m, rs, ks[g]);
    Associate(calls0, SmartCalls(m, rs, ks[..g]), GroupCalls(m, rs, ks[g]));
    assert SmartFlushes(m, rs, ks[..g + 1]) == SmartFlushes(m, rs, ks[..g]) + [GroupFlush(m, rs, ks[g])];
  }

  function Begins(calls: seq<BatchCall>): nat
  {
    if calls == [] then 0
    else Begins(calls[..|calls| - 1]) + (if calls[|calls| - 1].BeginCall? then 1 else 0)
  }

  function Ends(calls: seq<BatchCall>): nat
  {
    if calls == [] then 0
    else Ends(calls[..|calls| - 1]) + (if calls[|calls| - 1].EndCall? then 1 else 0)
  }

  /** The draw calls among `calls`, in order. */
  function DrawsIn(calls: seq<BatchCall>): seq<BatchCall>
  {
    if calls == [] then []
    else DrawsIn(calls[..|calls| - 1]) + (if calls[|calls| - 1].DrawCall? then [calls[|calls| - 1]] else [])
  }

  lemma {:induction false} CountsAppend(a: seq<BatchCall>, b: seq<BatchCall>)
    ensures Begins(a + b) == Begins(a) + Begins(b)
    ensures Ends(a + b) == Ends(a) + Ends(b)
    ensures DrawsIn(a + b) == DrawsIn(a) + DrawsIn(b)
  {
    if b == [] {
      ConcatEmpty(a);
    } else {
      ConcatPrefix(a, b);
      CountsAppend(a, b[..|b| - 1]);
    }
  }

  lemma DrawCallsAppend(a: seq<Renderable>, b: seq<Renderable>)
    ensures DrawCalls(a + b) == DrawCalls(a) + DrawCalls(b)
  {
  }

  lemma {:induction false} DrawCallsAreDraws(rs: seq<Renderable>)
    ensures Begins(DrawCalls(rs)) == 0 && Ends(DrawCalls(rs)) == 0
    ensures DrawsIn(DrawCalls(rs)) == DrawCalls(rs)
  {
    if rs != [] {
      var p := rs[..|rs| - 1];
      DrawCallsAreDraws(p);
      CountsAppend(DrawCalls(p), [DrawCallOf(rs[|rs| - 1])]);
    }
  }

  /** A permutation of the rows gives a permutation of their draw calls. */
  lemma {:induction false} DrawCallsPermutation(a: seq<Renderable>, b: seq<Renderable>)
    requires multiset(a) == multiset(b)
    ensures multiset(DrawCalls(a)) == multiset(DrawCalls(b))
  {
    if a == [] {
      assert |b| == |multiset(b)| == 0;
    } else {
      var x := a[|a| - 1];
      var a' := a[..|a| - 1];
      LastSplit(a);
      assert x in multiset(b);
      var i :| 0 <= i < |b| && b[i] == x;
      var b' := b[..i] + b[i + 1..];
      RemoveOne(a', b, i);
      DrawCallsPermutation(a', b');
      DrawCallsRemove(b, i);
      DrawCallsSnoc(a', x);
    }
  }

  lemma DrawCallsSnoc(a: seq<Renderable>, x: Renderable)
    ensures multiset(DrawCalls(a + [x])) == multiset(DrawCalls(a)) + multiset{DrawCallOf(x)}
  {
    DrawCallsAppend(a, [x]);
    assert DrawCalls([x]) == [DrawCallOf(x)];
  }

  lemma DrawCallsRemove(b: seq<Renderable>, i: int)
    requires 0 <= i < |b|
    ensures multiset(DrawCalls(b)) == multiset(DrawCalls(b[..i] + b[i + 1..])) + multiset{DrawCallOf(b[i])}
  {
    DrawCallsSplit(b, i);
    DrawCallsAppend(b[..i], b[i + 1..]);
  }

  /** Removing the element at `i` from `b` leaves the rest of the permutation. */
  lemma RemoveOne(a': seq<Renderable>, b: seq<Renderable>, i: int)
    requires 0 <= i < |b| && multiset(a' + [b[i]]) == multiset(b)
    ensures multiset(a') == multiset(b[..i] + b[i + 1..])
  {
    var x := b[i];
    SplitAt(b, i);
    var b' := b[..i] + b[i + 1..];
    assert multiset(b) == multiset(b') + multiset{x};
    assert multiset(a' + [x]) == multiset(a') + multiset{x};
    forall y
      ensures multiset(b')[y] == multiset(a')[y]
    {
      assert (multiset(a') + multiset{x})[y] == (multiset(b') + multiset{x})[y];
    }
  }

  lemma DrawCallsSplit(b: seq<Renderable>, i: int)
    requires 0 <= i < |b|
    ensures multiset(DrawCalls(b))
         == multiset(DrawCalls(b[..i])) + multiset{DrawCallOf(b[i])} + multiset(DrawCalls(b[i + 1..]))
  {
    var l, r := b[..i], b[i + 1..];
    SplitAt(b, i);
    DrawCallsAppend(l, [b[i]]);
    DrawCallsAppend(l + [b[i]], r);
    assert DrawCalls([b[i]]) == [DrawCallOf(b[i])];
    assert DrawCalls(b) == DrawCalls(l) + [DrawCallOf(b[i])] + DrawCalls(r);
  }

  lemma {:induction false} SmartCallsParts(m: Mat4, rs: seq<Renderable>, ks: seq<Texture>)
    ensures Begins(SmartCalls(m, rs, ks)) == |ks| && Ends(SmartCalls(m, rs, ks)) == |ks|
    ensures DrawsIn(SmartCalls(m, rs, ks)) == DrawCalls(Flatten(MembersOf(rs, TextureOf, ks)))
  {
    if ks != [] {
      var ks' := ks[..|ks| - 1];
      var k := ks[|ks| - 1];
      var group := Members(rs, TextureOf, k);
      SmartCallsParts(m, rs, ks');
      GroupCallsParts(m, rs, k);
      CountsAppend(SmartCalls(m, rs, ks'), GroupCalls(m, rs, k));
      assert MembersOf(rs, TextureOf, ks) == MembersOf(rs, TextureOf, ks') + [group];
      FlattenSnoc(MembersOf(rs, TextureOf, ks'), group);
      DrawCallsAppend(Flatten(MembersOf(rs, TextureOf, ks')), group);
    }
  }

  lemma GroupCallsParts(m: Mat4, rs: seq<Renderable>, k: Texture)
    ensures Begins(GroupCalls(m, rs, k)) == 1 && Ends(GroupCalls(m, rs, k)) == 1
    ensures DrawsIn(GroupCalls(m, rs, k)) == DrawCalls(Members(rs, TextureOf, k))
  {
    var group := Members(rs, TextureOf, k);
    DrawCallsAreDraws(group);
    CountsAppend([BeginCall(m)], DrawCalls(group));
    CountsAppend([BeginCall(m)] + DrawCalls(group), [EndCall(k)]);
    assert [BeginCall(m)][..0] == [];
    assert [EndCall(k)][..0] == [];
  }

  /**
    The smart pass issues one `Begin` and one `End` per texture group and
    draws every row exactly once: its draw calls are a permutation of the
    rows' draw calls.
  */
  lemma SmartCallCounts(m: Mat4, rs: seq<Renderable>)
    ensures var calls := SmartCalls(m, rs, Keys(rs, TextureOf));
            Begins(calls) == |Keys(rs, TextureOf)| && Ends(calls) == |Keys(rs, TextureOf)| &&
            multiset(DrawsIn(calls)) == multiset(DrawCalls(rs)) && |DrawsIn(calls)| == |rs|
  {
    SmartCallsParts(m, rs, Keys(rs, TextureOf));
    GroupsPartition(rs, TextureOf);
    DrawCallsPermutation(Flatten(GroupBy(rs, TextureOf)), rs);
  }

  /** Within a group, rows are drawn in query order: the group's session restricted to one texture. */
  lemma GroupKeepsQueryOrder(m: Mat4, a: seq<Renderable>, b: seq<Renderable>, k: Texture)
    ensures GroupCalls(m, a + b, k)
         == [BeginCall(m)] + DrawCalls(Members(a, TextureOf, k)) + DrawCalls(Members(b, TextureOf, k)) + [EndCall(k)]
  {
    MembersAppend(a, b, TextureOf, k);
    DrawCallsAppend(Members(a, TextureOf, k), Members(b, TextureOf, k));
  }

  /** The flushes carry distinct textures and their sprite counts add up to the number of rows. */
  function SumCounts(fs: seq<FlushEvent>): int
  {
    if fs == [] then 0 else SumCounts(fs[..|fs| - 1]) + fs[|fs| - 1].spriteCount
  }

  lemma {:induction false} SumCountsFlatten(m: Mat4, rs: seq<Renderable>, ks: seq<Texture>)
    ensures SumCounts(SmartFlushes(m, rs, ks)) == |Flatten(MembersOf(rs, TextureOf, ks))|
  {
    if ks != [] {
      var ks' := ks[..|ks| - 1];
      SumCountsFlatten(m, rs, ks');
      assert SmartFlushes(m, rs, ks)[..|ks| - 1] == SmartFlushes(m, rs, ks');
      FlattenSnoc(MembersOf(rs, TextureOf, ks'), Members(rs, TextureOf, ks[|ks| - 1]));
    }
  }

  lemma SmartFlushesPartition(m: Mat4, rs: seq<Renderable>)
    ensures var fs := SmartFlushes(m, rs, Keys(rs, TextureOf));
            (forall g, h :: 0 <= g < h < |fs| ==> fs[g].texture != fs[h].texture) &&
            (forall g :: 0 <= g < |fs| ==> fs[g].spriteCount > 0 && fs[g].mvp == m) &&
            SumCounts(fs) == |rs|
  {
    var ks := Keys(rs, TextureOf);
    KeysDistinct(rs, TextureOf);
    forall g | 0 <= g < |ks|
      ensures |Members(rs, TextureOf, ks[g])| > 0
    {
      MembersEmptyIffAbsent(rs, TextureOf, ks[g]);
    }
    SumCountsFlatten(m, rs, ks);
    GroupsPartition(rs, TextureOf);
  }

  /**
    Two rows sharing texture A and one with texture B, in any order, give
    exactly two flushes.
  */
  lemma TwoTexturesTwoFlushes(m: Mat4, rs: seq<Renderable>, a: Texture, b: Texture)
    requires a != b && |rs| == 3
    requires forall i :: 0 <= i < 3 ==> TextureOf(rs[i]) == a || TextureOf(rs[i]) == b
    requires exists i :: 0 <= i < 3 && TextureOf(rs[i]) == a
    requires exists i :: 0 <= i < 3 && TextureOf(rs[i]) == b
    ensures |SmartFlushes(m, rs, Keys(rs, TextureOf))| == 2
  {
    KeysCountDistinct(rs, TextureOf);
    forall t | t in KeySet(rs, TextureOf)
      ensures t == a || t == b
    {
      var i :| 0 <= i < 3 && TextureOf(rs[i]) == t;
    }
    var ia :| 0 <= ia < 3 && TextureOf(rs[ia]) == a;
    var ib :| 0 <= ib < 3 && TextureOf(rs[ib]) == b;
    assert a in KeySet(rs, TextureOf) && b in KeySet(rs, TextureOf);
    assert KeySet(rs, TextureOf) == {a, b};
    assert |{a, b}| == 2;
  }

  // ---------------------------------------------------------------------
  // The single-session pass

  /** The plain overload: like `DrawCallOf`, with the sprite's region ignored. */
  function PlainDrawCallOf(r: Renderable): (d: BatchCall)
    ensures d.DrawCall? && d.source.None?
    ensures DrawCallOf(r) == d.(source := r.sprite.sourceRect)
  {
    DrawCall(r.sprite.texture, r.transform.position, Mul(r.sprite.size, r.transform.scale),
             None, r.sprite.color, r.sprite.origin, r.transform.rotation)
  }

  function PlainDrawCalls(rs: seq<Renderable>): (ds: seq<BatchCall>)
    ensures |ds| == |rs|
    ensures forall i :: 0 <= i < |rs| ==> ds[i] == PlainDrawCallOf(rs[i])
  {
    if rs == [] then [] else PlainDrawCalls(rs[..|rs| - 1]) + [PlainDrawCallOf(rs[|rs| - 1])]
  }

  lemma PlainStep(rs: seq<Renderable>, i: int)
    requires 0 <= i < |rs|
    ensures PlainDrawCalls(rs[..i + 1]) == PlainDrawCalls(rs[..i]) + [PlainDrawCallOf(rs[i])]
  {
    PrefixSnoc(rs, i);
  }

  /** `Begin(m)`, every row drawn in order, then `End(first texture)` if there was a row. */
  function SingleSessionCalls(m: Mat4, rs: seq<Renderable>): seq<BatchCall>
  {
    [BeginCall(m)] + PlainDrawCalls(rs) + (if rs == [] then [] else [EndCall(TextureOf(rs[0]))])
  }

  function SingleSessionFlushes(m: Mat4, rs: seq<Renderable>): seq<FlushEvent>
  {
    if rs == [] then [] else [FlushEvent(TextureOf(rs[0]), |rs|, m)]
  }

  /** All rows share one texture: then grouping finds that single group, holding every row. */
  lemma {:induction false} OneTextureOneGroup(rs: seq<Renderable>, t: Texture)
    requires forall i :: 0 <= i < |rs| ==> TextureOf(rs[i]) == t
    ensures Members(rs, TextureOf, t) == rs
    ensures Keys(rs, TextureOf) == if rs == [] then [] else [t]
  {
    if rs != [] {
      OneTextureOneGroup(rs[..|rs| - 1], t);
    }
  }

  /**
    With one texture and no regions the two passes agree call for call and
    flush for flush.
  */
  lemma OneTexturePassesAgree(m: Mat4, rs: seq<Renderable>, t: Texture)
    requires |rs| > 0
    requires forall i :: 0 <= i < |rs| ==> TextureOf(rs[i]) == t && rs[i].sprite.sourceRect.None?
    ensures SmartCalls(m, rs, Keys(rs, TextureOf)) == SingleSessionCalls(m, rs)
    ensures SmartFlushes(m, rs, Keys(rs, TextureOf)) == SingleSessionFlushes(m, rs)
  {
    OneTextureOneGroup(rs, t);
    assert [t][..0] == [];
    assert DrawCalls(rs) == PlainDrawCalls(rs);
  }

  /**
    With two textures among the rows the single session submits everything
    in one flush, bound to the first row's texture, where grouping needs a
    flush per texture.
  */
  lemma SingleSessionMisbinds(m: Mat4, rs: seq<Renderable>, i: int)
    requires 0 <= i < |rs| && TextureOf(rs[i]) != TextureOf(rs[0])
    ensures |SingleSessionFlushes(m, rs)| == 1
    ensures SingleSessionFlushes(m, rs)[0].texture != TextureOf(rs[i])
    ensures |SmartFlushes(m, rs, Keys(rs, TextureOf))| >= 2
  {
    var ks := Keys(rs, TextureOf);
    KeysIffOccurs(rs, TextureOf, TextureOf(rs[0]));
    KeysIffOccurs(rs, TextureOf, TextureOf(rs[i]));
    var g :| 0 <= g < |ks| && ks[g] == TextureOf(rs[0]);
    var h :| 0 <= h < |ks| && ks[h] == TextureOf(rs[i]);
    assert g != h;
  }

  class SmartSpriteBatchRenderSystem {
    const spriteBatch: SpriteBatch2D
    const camera: Camera2D

    constructor (spriteBatch: SpriteBatch2D, camera: Camera2D)
      ensures this.spriteBatch == spriteBatch && this.camera == camera
    {
      this.spriteBatch := spriteBatch;
      this.camera := camera;
    }

    /**
      One session per texture group, groups in order of first use, members
      in query order. Fails exactly when some group exceeds the batch.
    */
    method Render(scene: Scene) returns (ok: bool)
      requires spriteBatch.Valid() && HasArea(camera.State())
      modifies spriteBatch, spriteBatch.vertices, spriteBatch.counter
      ensures spriteBatch.Valid()
      ensures ok <==> GroupsFit(old(Query(scene.entities)))
      ensures ok ==>
        var rs := old(Query(scene.entities));
        spriteBatch.calls == old(spriteBatch.calls) + SmartCalls(camera.GetMatrix(), rs, Keys(rs, TextureOf)) &&
        spriteBatch.flushes == old(spriteBatch.flushes) + SmartFlushes(camera.GetMatrix(), rs, Keys(rs, TextureOf)) &&
        spriteBatch.counter.totalDrawCallsThisFrame
          == old(spriteBatch.counter.totalDrawCallsThisFrame) + |Keys(rs, TextureOf)|
    {
      var m := camera.GetMatrix();
      var rs := Query(scene.entities);
      ok := RenderGroups(m, rs);
    }

    /** The loop over the texture groups of the query rows `rs`. */
    method RenderGroups(m: Mat4, rs: seq<Renderable>) returns (ok: bool)
      requires spriteBatch.Valid()
      modifies spriteBatch, spriteBatch.vertices, spriteBatch.counter
      ensures spriteBatch.Valid()
      ensures ok <==> GroupsFit(rs)
      ensures ok ==>
        spriteBatch.calls == old(spriteBatch.calls) + SmartCalls(m, rs, Keys(rs, TextureOf)) &&
        spriteBatch.flushes == old(spriteBatch.flushes) + SmartFlushes(m, rs, Keys(rs, TextureOf)) &&
        spriteBatch.counter.totalDrawCallsThisFrame
          == old(spriteBatch.counter.totalDrawCallsThisFrame) + |Keys(rs, TextureOf)|
    {
      var ks := Keys(rs, TextureOf);
      ghost var calls0 := spriteBatch.calls;
      ghost var flushes0 := spriteBatch.flushes;
      ghost var draws0 := spriteBatch.counter.totalDrawCallsThisFrame;
      for g := 0 to |ks|
        invariant spriteBatch.Valid()
        invariant AllFit(rs, ks[..g])
        invariant spriteBatch.calls == calls0 + SmartCalls(m, rs, ks[..g])
        invariant spriteBatch.flushes == flushes0 + SmartFlushes(m, rs, ks[..g])
        invariant spriteBatch.counter.totalDrawCallsThisFrame == draws0 + g
      {
        GroupStep(m, rs, ks, g, calls0, flushes0);
        var texture := ks[g];
        var group := Members(rs, TextureOf, texture);
        MembersEmptyIffAbsent(rs, TextureOf, texture);
        var fits := DrawGroup(m, group, texture);
        if !fits {
          AllFitIff(rs, ks);
          return false;
        }
      }
      Whole(ks);
      ok := true;
    }

    /** One group's session: `Begin(m)`, the members in order, `End(texture)`. */
    method DrawGroup(m: Mat4, group: seq<Renderable>, texture: Texture) returns (fits: bool)
      requires spriteBatch.Valid() && |group| > 0
      modifies spriteBatch, spriteBatch.vertices, spriteBatch.counter
      ensures spriteBatch.Valid()
      ensures fits <==> |group| <= MaxSprites
      ensures fits ==>
        spriteBatch.calls == old(spriteBatch.calls) + ([BeginCall(m)] + DrawCalls(group) + [EndCall(texture)]) &&
        spriteBatch.flushes == old(spriteBatch.flushes) + [FlushEvent(texture, |group|, m)] &&
        spriteBatch.counter.totalDrawCallsThisFrame == old(spriteBatch.counter.totalDrawCallsThisFrame) + 1
    {
      spriteBatch.Begin(m);
      ghost var callsG := spriteBatch.calls;
      ghost var flushesG := spriteBatch.flushes;
      for i := 0 to |group|
        invariant spriteBatch.Valid() && spriteBatch.mvp == m && spriteBatch.spriteCount == i
        invariant spriteBatch.calls == callsG + DrawCalls(group[..i])
        invariant spriteBatch.flushes == flushesG
        invariant spriteBatch.counter.totalDrawCallsThisFrame == old(spriteBatch.counter.totalDrawCallsThisFrame)
      {
        PrefixSnoc(group, i);
        var drawn := DrawRow(group[i]);
        if !drawn {
          return false;
        }
      }
      Whole(group);
      spriteBatch.End(texture);
      Associate(old(spriteBatch.calls), [BeginCall(m)], DrawCalls(group));
      Associate(old(spriteBatch.calls), [BeginCall(m)] + DrawCalls(group), [EndCall(texture)]);
      fits := true;
    }

    /** The inner loop's body: the atlas overload when the sprite has a region, else the plain one. */
    method DrawRow(r: Renderable) returns (drawn: bool)
      requires spriteBatch.Valid()
      modifies spriteBatch, spriteBatch.vertices
      ensures spriteBatch.Valid() && spriteBatch.mvp == old(spriteBatch.mvp)
      ensures spriteBatch.calls == old(spriteBatch.calls) + [DrawCallOf(r)]
      ensures spriteBatch.flushes
           == old(spriteBatch.flushes) + CapacityFlush(old(spriteBatch.spriteCount), TextureOf(r), spriteBatch.mvp)
      ensures drawn <==> old(spriteBatch.spriteCount) < MaxSprites
      ensures drawn ==> spriteBatch.spriteCount == old(spriteBatch.spriteCount) + 1
    {
      var size := Mul(r.sprite.size, r.transform.scale);
      if r.sprite.sourceRect.Some? {
        drawn := spriteBatch.DrawRegion(r.sprite.texture, r.transform.position, size,
                                        r.sprite.sourceRect.value, r.sprite.color, r.sprite.origin,
                                        r.transform.rotation);
      } else {
        drawn := spriteBatch.Draw(r.sprite.texture, r.transform.position, size, r.sprite.color,
                                  r.sprite.origin, r.transform.rotation);
      }
    }
  }

  class SpriteBatchRenderSystem {
    const spriteBatch: SpriteBatch2D
    const camera: Camera2D

    constructor (spriteBatch: SpriteBatch2D, camera: Camera2D)
      ensures this.spriteBatch == spriteBatch && this.camera == camera
    {
      this.spriteBatch := spriteBatch;
      this.camera := camera;
    }

    /**
      One session over all rows with the plain overload, ended with the
      first row's texture when there was a row. Fails exactly when there
      are more rows than the batch holds.
    */
    method Render(scene: Scene) returns (ok: bool)
      requires spriteBatch.Valid() && HasArea(camera.State())
      modifies spriteBatch, spriteBatch.vertices, spriteBatch.counter
      ensures spriteBatch.Valid()
      ensures ok <==> |old(Query(scene.entities))| <= MaxSprites
      ensures ok ==>
        var rs := old(Query(scene.entities));
        spriteBatch.calls == old(spriteBatch.calls) + SingleSessionCalls(camera.GetMatrix(), rs) &&
        spriteBatch.flushes == old(spriteBatch.flushes) + SingleSessionFlushes(camera.GetMatrix(), rs) &&
        spriteBatch.counter.totalDrawCallsThisFrame
          == old(spriteBatch.counter.totalDrawCallsThisFrame) + (if rs == [] then 0 else 1)
    {
      var viewMatrix := camera.GetMatrix();
      var rs := Query(scene.entities);
      ok := RenderSession(viewMatrix, rs);
    }

    /** The single session over the query rows `rs`. */
    method RenderSession(viewMatrix: Mat4, rs: seq<Renderable>) returns (ok: bool)
      requires spriteBatch.Valid()
      modifies spriteBatch, spriteBatch.vertices, spriteBatch.counter
      ensures spriteBatch.Valid()
      ensures ok <==> |rs| <= MaxSprites
      ensures ok ==>
        spriteBatch.calls == old(spriteBatch.calls) + SingleSessionCalls(viewMatrix, rs) &&
        spriteBatch.flushes == old(spriteBatch.flushes) + SingleSessionFlushes(viewMatrix, rs) &&
        spriteBatch.counter.totalDrawCallsThisFrame
          == old(spriteBatch.counter.totalDrawCallsThisFrame) + (if rs == [] then 0 else 1)
    {
      ghost var calls0 := spriteBatch.calls;
      ghost var flushes0 := spriteBatch.flushes;
      spriteBatch.Begin(viewMatrix);
      ghost var callsB := spriteBatch.calls;
      var usedTexture: Texture? := null;
      for i := 0 to |rs|
        invariant spriteBatch.Valid() && spriteBatch.mvp == viewMatrix && spriteBatch.spriteCount == i
        invariant usedTexture == if i == 0 then null else TextureOf(rs[0])
        invariant spriteBatch.calls == callsB + PlainDrawCalls(rs[..i])
        invariant spriteBatch.flushes == flushes0
        invariant spriteBatch.counter.totalDrawCallsThisFrame == old(spriteBatch.counter.totalDrawCallsThisFrame)
      {
        PlainStep(rs, i);
        var r := rs[i];
        if usedTexture == null {
          usedTexture := r.sprite.texture;
        }
        var drawn := SessionRow(r);
        if !drawn {
          return false;
        }
      }
      Whole(rs);
      ghost var tail: seq<BatchCall> := [];
      if usedTexture != null {
        spriteBatch.End(usedTexture);
        tail := [EndCall(usedTexture)];
      } else {
        ConcatEmpty(spriteBatch.calls);
      }
      Associate(calls0, [BeginCall(viewMatrix)], PlainDrawCalls(rs));
      Associate(calls0, [BeginCall(viewMatrix)] + PlainDrawCalls(rs), tail);
      ok := true;
    }

    /** The loop body: the plain overload, whatever the sprite's region. */
    method SessionRow(r: Renderable) returns (drawn: bool)
      requires spriteBatch.Valid()
      modifies spriteBatch, spriteBatch.vertices
      ensures spriteBatch.Valid() && spriteBatch.mvp == old(spriteBatch.mvp)
      ensures spriteBatch.calls == old(spriteBatch.calls) + [PlainDrawCallOf(r)]
      ensures drawn <==> old(spriteBatch.spriteCount) < MaxSprites
      ensures drawn ==> spriteBatch.spriteCount == old(spriteBatch.spriteCount) + 1 &&
                        spriteBatch.flushes == old(spriteBatch.flushes)
    {
      drawn := spriteBatch.Draw(r.sprite.texture, r.transform.position,
                                Mul(r.sprite.size, r.transform.scale), r.sprite.color,
                                r.sprite.origin, r.transform.rotation);
    }
  }
}
