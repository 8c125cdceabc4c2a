/**
  `BitmapFontRenderer.DrawText`: a pen walks along the text; every
  character with a glyph is drawn as the glyph's atlas region at the pen
  (shifted by the glyph's offset) and moves the pen right by its advance,
  all scaled by `scale`; characters without a glyph are skipped and do not
  move the pen.
*/
module FontRendering {
  import opened Wrappers
  import opened Geometry
  import opened Textures
  import opened Batching
  import opened Fonts
  import opened Seqs

  /** The number of characters of `text` that have a glyph. */
  function KnownCount(glyphs: map<int, Glyph>, text: string): (n: nat)
    ensures n <= |text|
  {
    if text == [] then 0
    else KnownCount(glyphs, text[..|text| - 1]) + (if KeyOf(text[|text| - 1]) in glyphs then 1 else 0)
  }

  /** The pen after `text`, starting at `position`. */
  function Pen(glyphs: map<int, Glyph>, text: string, position: Vec2, scale: real): Vec2
  {
    if text == [] then position
    else
      var p := Pen(glyphs, text[..|text| - 1], position, scale);
      var c := text[|text| - 1];
      if KeyOf(c) in glyphs then Vec2(p.x + glyphs[KeyOf(c)].xAdvance * scale, p.y) else p
  }

  /** The draw of glyph `g` with the pen at `pen`. */
  function GlyphCall(texture: Texture, g: Glyph, pen: Vec2, color: Vec4, scale: real): (d: BatchCall)
    ensures d.DrawCall? && d.texture == texture && d.color == color
    ensures d.position == Add(pen, Scale(g.offset, scale))
    ensures d.size == Vec2(g.source.width * scale, g.source.height * scale)
    ensures d.source == Some(g.source) && d.origin == Zero2 && d.rotation == NoRotation
  {
    DrawCall(texture, Add(pen, Scale(g.offset, scale)), Vec2(g.source.width * scale, g.source.height * scale),
             Some(g.source), color, Zero2, NoRotation)
  }

  /** The draws `DrawText` issues: one atlas draw per character with a glyph, in text order. */
  function TextCalls(glyphs: map<int, Glyph>, texture: Texture, text: string, position: Vec2,
                     color: Vec4, scale: real): (ds: seq<BatchCall>)
    ensures |ds| == KnownCount(glyphs, text)
    ensures forall i :: 0 <= i < |ds| ==>
              ds[i].DrawCall? && ds[i].texture == texture && ds[i].color == color && ds[i].source.Some? &&
              ds[i].origin == Zero2 && ds[i].rotation == NoRotation
  {
    if text == [] then []
    else
      var p := text[..|text| - 1];
      var c := text[|text| - 1];
      TextCalls(glyphs, texture, p, position, color, scale) +
      (if KeyOf(c) in glyphs then [GlyphCall(texture, glyphs[KeyOf(c)], Pen(glyphs, p, position, scale), color, scale)]
       else [])
  }

  /**
    The pen ends `scale` times the measured width to the right of where it
    started, on the same line.
  */
  lemma {:induction false} PenAdvancesByWidth(glyphs: map<int, Glyph>, text: string, position: Vec2, scale: real)
    ensures Pen(glyphs, text, position, scale).x == position.x + scale * Width(glyphs, text)
    ensures Pen(glyphs, text, position, scale).y == position.y
  {
    if text != [] {
      PenAdvancesByWidth(glyphs, text[..|text| - 1], position, scale);
    }
  }

  /** Walking the pen over `s + t` is walking it over `s`, then over `t` from there. */
  lemma {:induction false} PenAppend(glyphs: map<int, Glyph>, s: string, t: string, position: Vec2, scale: real)
    ensures Pen(glyphs, s + t, position, scale) == Pen(glyphs, t, Pen(glyphs, s, position, scale), scale)
  {
    if t == [] {
      ConcatEmpty(s);
    } else {
      PenAppend(glyphs, s, t[..|t| - 1], position, scale);
      ConcatPrefix(s, t);
    }
  }

  /** Laying out `s + t` is laying out `s`, then `t` from where the pen stopped. */
  lemma {:induction false} LayoutAppend(glyphs: map<int, Glyph>, texture: Texture, s: string, t: string,
                                        position: Vec2, color: Vec4, scale: real)
    ensures TextCalls(glyphs, texture, s + t, position, color, scale)
         == TextCalls(glyphs, texture, s, position, color, scale) +
            TextCalls(glyphs, texture, t, Pen(glyphs, s, position, scale), color, scale)
  {
    if t == [] {
      ConcatEmpty(s);
      ConcatEmpty(TextCalls(glyphs, texture, s, position, color, scale));
    } else {
      var t' := t[..|t| - 1];
      LayoutAppend(glyphs, texture, s, t', position, color, scale);
      PenAppend(glyphs, s, t', position, scale);
      ConcatPrefix(s, t);
    }
  }

  /** Counting known characters is additive. */
  lemma {:induction false} KnownCountAppend(glyphs: map<int, Glyph>, s: string, t: string)
    ensures KnownCount(glyphs, s + t) == KnownCount(glyphs, s) + KnownCount(glyphs, t)
  {
    if t == [] {
      assert s + t == s;
    } else {
      KnownCountAppend(glyphs, s, t[..|t| - 1]);
      assert (s + t)[..|s + t| - 1] == s + t[..|t| - 1];
    }
  }

  class BitmapFontRenderer {
    const font: BitmapFont

    constructor (font: BitmapFont)
      ensures this.font == font
    {
      this.font := font;
    }

    /**
      Draws `text` with its first pen position at `position`. Fails where a
      glyph draw fails, which happens exactly when the batch cannot take all
      the known characters.
    */
    method DrawText(spriteBatch: SpriteBatch2D, text: string, position: Vec2, color: Vec4, scale: real)
      returns (ok: bool)
      requires spriteBatch.Valid()
      modifies spriteBatch, spriteBatch.vertices
      ensures spriteBatch.Valid() && spriteBatch.mvp == old(spriteBatch.mvp)
      ensures ok <==> old(spriteBatch.spriteCount) + KnownCount(font.glyphs, text) <= MaxSprites
      ensures ok ==>
        spriteBatch.calls
          == old(spriteBatch.calls) + TextCalls(font.glyphs, font.texture, text, position, color, scale) &&
        spriteBatch.flushes == old(spriteBatch.flushes) &&
        spriteBatch.spriteCount == old(spriteBatch.spriteCount) + KnownCount(font.glyphs, text)
    {
      ghost var calls0 := spriteBatch.calls;
      ghost var flushes0 := spriteBatch.flushes;
      ghost var count0 := spriteBatch.spriteCount;
      var pos := position;
      for i := 0 to |text|
        invariant spriteBatch.Valid() && spriteBatch.mvp == old(spriteBatch.mvp)
        invariant pos == Pen(font.glyphs, text[..i], position, scale)
        invariant spriteBatch.calls == calls0 + TextCalls(font.glyphs, font.texture, text[..i], position, color, scale)
        invariant spriteBatch.flushes == flushes0
        invariant spriteBatch.spriteCount == count0 + KnownCount(font.glyphs, text[..i])
      {
        var c := text[i];
        LayoutStep(font.glyphs, font.texture, text, i, position, color, scale);
        if KeyOf(c) !in font.glyphs {
          continue;
        }
        var glyph := font.glyphs[KeyOf(c)];
        var drawn := DrawGlyph(spriteBatch, glyph, pos, color, scale);
        if !drawn {
          KnownCountPrefix(font.glyphs, text, i + 1);
          return false;
        }
        pos := Vec2(pos.x + glyph.xAdvance * scale, pos.y);
      }
      assert text[..|text|] == text;
      ok := true;
    }

    /** The loop body for a character with glyph `glyph`, the pen at `pos`. */
    method DrawGlyph(spriteBatch: SpriteBatch2D, glyph: Glyph, pos: Vec2, color: Vec4, scale: real)
      returns (drawn: bool)
      requires spriteBatch.Valid()
      modifies spriteBatch, spriteBatch.vertices
      ensures spriteBatch.Valid() && spriteBatch.mvp == old(spriteBatch.mvp)
      ensures spriteBatch.calls == old(spriteBatch.calls) + [GlyphCall(font.texture, glyph, pos, color, scale)]
      ensures drawn <==> old(spriteBatch.spriteCount) < MaxSprites
      ensures drawn ==> spriteBatch.spriteCount == old(spriteBatch.spriteCount) + 1 &&
                        spriteBatch.flushes == old(spriteBatch.flushes)
    {
      var charPos := Add(pos, Scale(glyph.offset, scale));
      var size := Vec2(glyph.source.width * scale, glyph.source.height * scale);
      assert GlyphCall(font.texture, glyph, pos, color, scale)
          == DrawCall(font.texture, charPos, size, Some(glyph.source), color, Zero2, NoRotation);
      drawn := spriteBatch.DrawRegion(font.texture, charPos, size, glyph.source, color, Zero2, NoRotation);
    }
  }

  /** One more character of the text: at most one more draw, and the pen moves by its advance. */
  lemma LayoutStep(glyphs: map<int, Glyph>, texture: Texture, text: string, i: int,
                   position: Vec2, color: Vec4, scale: real)
    requires 0 <= i < |text|
    ensures var c := text[i];
            var pen := Pen(glyphs, text[..i], position, scale);
            Pen(glyphs, text[..i + 1], position, scale)
              == (if KeyOf(c) in glyphs then Vec2(pen.x + glyphs[KeyOf(c)].xAdvance * scale, pen.y) else pen) &&
            TextCalls(glyphs, texture, text[..i + 1], position, color, scale)
              == TextCalls(glyphs, texture, text[..i], position, color, scale) +
                 (if KeyOf(c) in glyphs then [GlyphCall(texture, glyphs[KeyOf(c)], pen, color, scale)] else []) &&
            KnownCount(glyphs, text[..i + 1]) == KnownCount(glyphs, text[..i]) + (if KeyOf(c) in glyphs then 1 else 0)
  {
    PrefixSnoc(text, i);
  }

  /** A prefix has no more known characters than the whole text. */
  lemma KnownCountPrefix(glyphs: map<int, Glyph>, text: string, j: int)
    requires 0 <= j <= |text|
    ensures KnownCount(glyphs, text[..j]) <= KnownCount(glyphs, text)
  {
    KnownCountAppend(glyphs, text[..j], text[j..]);
    assert text[..j] + text[j..] == text;
  }
}
