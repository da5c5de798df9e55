/** Layout of a string that mixes CJK and Latin characters: each character is drawn
    in the font for its script, glyph after glyph, from a start position shifted by
    the measured width for centre and right alignment.

    The imaging library is outside the model: `GlyphBox` is the text-box query of the
    drawing surface (font, character and drawing origin to the box's left, top, right
    and bottom edges) and is passed in, and a `Surface` records every glyph drawn on it. */
module MixedFonts {

  const ChineseFontPath: string := "/usr/share/fonts/truetype/droid/DroidSansFallbackFull.ttf"
  const EnglishFontPath: string := "/usr/share/fonts/truetype/dejavu/DejaVuSans.ttf"

  datatype Font = TrueType(path: string, size: int) | DefaultFont

  /** The fonts for non-ASCII (`cn`) and ASCII (`en`) characters. */
  datatype FontPair = FontPair(cn: Font, en: Font)

  datatype Align = Left | Center | Right | OtherAlign

  datatype Box = Box(left: int, top: int, right: int, bottom: int)

  type GlyphBox = (Font, char, int, int) -> Box

  datatype Glyph = Glyph(x: int, y: int, ch: char, font: Font, color: int)

  /** Loading both TrueType fonts either succeeds, or raises and both fall back to the
      library's default bitmap font; `loaded` is the outcome of the file system calls. */
  function LoadFonts(loaded: bool, size: int): (fonts: FontPair)
    ensures loaded ==> fonts.cn.TrueType? && fonts.en.TrueType? && fonts.cn.size == size && fonts.en.size == size
    ensures loaded ==> fonts.cn.path == ChineseFontPath && fonts.en.path == EnglishFontPath
    ensures !loaded ==> fonts.cn == fonts.en == DefaultFont
  {
    if loaded then FontPair(TrueType(ChineseFontPath, size), TrueType(EnglishFontPath, size))
    else FontPair(DefaultFont, DefaultFont)
  }

  /** Code points below 128 are set in the Latin font, all others in the CJK font. */
  function FontFor(fonts: FontPair, c: char): Font {
    if (c as int) < 128 then fonts.en else fonts.cn
  }

  /** Width of one glyph as measured at the origin, plus one pixel of spacing. */
  function Advance(box: GlyphBox, fonts: FontPair, c: char): int {
    var b := box(FontFor(fonts, c), c, 0, 0);
    (b.right - b.left) + 1
  }

  /** The measured width of a string: the sum of its glyphs' advances. */
  function MeasuredWidth(box: GlyphBox, fonts: FontPair, text: string): int {
    if text == [] then 0 else MeasuredWidth(box, fonts, text[..|text| - 1]) + Advance(box, fonts, text[|text| - 1])
  }

  /** The x at which drawing starts for an anchor x and a measured width; floor
      division of a width by two is Euclidean division by a positive divisor. */
  function StartX(anchor: int, total: int, align: Align): int {
    match align
    case Center => anchor - total / 2
    case Right => anchor - total
    case _ => anchor
  }

  /** The glyphs drawn for `text` from `x`, and the x reached after the last one:
      each glyph moves x to the right edge of its own box plus one. */
  function Placed(box: GlyphBox, fonts: FontPair, x: int, y: int, text: string, color: int): seq<Glyph>
    decreases |text|
  {
    if text == [] then []
    else
      var f := FontFor(fonts, text[0]);
      [Glyph(x, y, text[0], f, color)] + Placed(box, fonts, box(f, text[0], x, y).right + 1, y, text[1..], color)
  }

  function EndX(box: GlyphBox, fonts: FontPair, x: int, y: int, text: string): int
    decreases |text|
  {
    if text == [] then x
    else
      var f := FontFor(fonts, text[0]);
      EndX(box, fonts, box(f, text[0], x, y).right + 1, y, text[1..])
  }

  lemma {:induction false} PlacedAppend(box: GlyphBox, fonts: FontPair, x: int, y: int, text: string, c: char, color: int)
    ensures Placed(box, fonts, x, y, text + [c], color)
         == Placed(box, fonts, x, y, text, color) + [Glyph(EndX(box, fonts, x, y, text), y, c, FontFor(fonts, c), color)]
    ensures EndX(box, fonts, x, y, text + [c]) == box(FontFor(fonts, c), c, EndX(box, fonts, x, y, text), y).right + 1
    decreases |text|
  {
    if text == [] {
      assert [c][1..] == [];
    } else {
      assert (text + [c])[0] == text[0];
      assert (text + [c])[1..] == text[1..] + [c];
      var f := FontFor(fonts, text[0]);
      PlacedAppend(box, fonts, box(f, text[0], x, y).right + 1, y, text[1..], c, color);
    }
  }

  /** The drawing target; `draw.text` appends one glyph to it. */
  class Surface {
    var drawn: seq<Glyph>

    constructor ()
      ensures drawn == []
    {
      drawn := [];
    }

    method Text(x: int, y: int, c: char, font: Font, color: int)
      modifies this
      ensures drawn == old(drawn) + [Glyph(x, y, c, font, color)]
    {
      drawn := drawn + [Glyph(x, y, c, font, color)];
    }
  }

  /** The measuring loop `get_text_width` and `draw_text_mixed` share: the sum over the
      characters of box width plus one. */
  method MeasureText(box: GlyphBox, fonts: FontPair, text: string) returns (total: int)
    ensures total == MeasuredWidth(box, fonts, text)
  {
    total := 0;
    var i := 0;
    while i < |text|
      invariant 0 <= i <= |text|
      invariant total == MeasuredWidth(box, fonts, text[..i])
    {
      var f := FontFor(fonts, text[i]);
      var b := box(f, text[i], 0, 0);
      total := total + (b.right - b.left) + 1;
      assert text[..i + 1][..i] == text[..i];
      i := i + 1;
    }
    assert text[..i] == text;
  }

  /** `get_text_width`. */
  method GetTextWidth(box: GlyphBox, loaded: bool, text: string, size: int) returns (total: int)
    ensures total == MeasuredWidth(box, LoadFonts(loaded, size), text)
  {
    total := MeasureText(box, LoadFonts(loaded, size), text);
  }

  /** The drawing loop of `draw_text_mixed`: each character at `x`, which then moves to
      the glyph's right edge plus one. */
  method DrawGlyphs(surface: Surface, box: GlyphBox, fonts: FontPair, start: int, y: int, text: string, color: int)
    returns (x: int)
    modifies surface
    ensures surface.drawn == old(surface.drawn) + Placed(box, fonts, start, y, text, color)
    ensures x == EndX(box, fonts, start, y, text)
  {
    x := start;
    var i := 0;
    while i < |text|
      invariant 0 <= i <= |text|
      invariant surface.drawn == old(surface.drawn) + Placed(box, fonts, start, y, text[..i], color)
      invariant x == EndX(box, fonts, start, y, text[..i])
    {
      var f := FontFor(fonts, text[i]);
      surface.Text(x, y, text[i], f, color);
      var b := box(f, text[i], x, y);
      PlacedAppend(box, fonts, start, y, text[..i], text[i], color);
      assert text[..i + 1] == text[..i] + [text[i]];
      x := b.right + 1;
      i := i + 1;
    }
    assert text[..i] == text;
  }

  /** `draw_text_mixed`: draws every character at the aligned start, advancing x to
      each glyph's right edge plus one, and returns the final x. */
  method DrawTextMixed(surface: Surface, box: GlyphBox, loaded: bool, anchor: int, y: int, text: string,
                       size: int, color: int, align: Align) returns (x: int)
    modifies surface
    ensures var fonts := LoadFonts(loaded, size);
            var start := StartX(anchor, MeasuredWidth(box, fonts, text), align);
            surface.drawn == old(surface.drawn) + Placed(box, fonts, start, y, text, color)
            && x == EndX(box, fonts, start, y, text)
  {
    var fonts := LoadFonts(loaded, size);
    var totalWidth := 0;
    if align != Left {
      totalWidth := MeasureText(box, fonts, text);
    }
    x := anchor;
    if align == Center {
      x := x - totalWidth / 2;
    } else if align == Right {
      x := x - totalWidth;
    }
    assert x == StartX(anchor, MeasuredWidth(box, fonts, text), align);
    x := DrawGlyphs(surface, box, fonts, x, y, text, color);
  }

  /** A box query whose boxes move with the origin and start at it: every glyph's
      left offset is zero. */
  ghost predicate FlushLeft(box: GlyphBox, fonts: FontPair, y: int, text: string) {
    (forall c :: c in text ==> box(FontFor(fonts, c), c, 0, 0).left == 0)
    && (forall c, x :: c in text ==> box(FontFor(fonts, c), c, x, y).right == x + box(FontFor(fonts, c), c, 0, 0).right)
  }

  /** With flush-left glyphs the pen ends exactly the measured width after the start. */
  lemma {:induction false} FlushAdvanceIsWidth(box: GlyphBox, fonts: FontPair, x: int, y: int, text: string)
    requires FlushLeft(box, fonts, y, text)
    ensures EndX(box, fonts, x, y, text) - x == MeasuredWidth(box, fonts, text)
    decreases |text|
  {
    if text != [] {
      var f := FontFor(fonts, text[0]);
      var next := box(f, text[0], x, y).right + 1;
      assert forall c :: c in text[1..] ==> c in text;
      FlushAdvanceIsWidth(box, fonts, next, y, text[1..]);
      MeasuredWidthCons(box, fonts, text);
      assert box(f, text[0], 0, 0).left == 0;
    }
  }

  lemma {:induction false} MeasuredWidthCons(box: GlyphBox, fonts: FontPair, text: string)
    requires text != []
    ensures MeasuredWidth(box, fonts, text) == Advance(box, fonts, text[0]) + MeasuredWidth(box, fonts, text[1..])
    decreases |text|
  {
    if |text| > 1 {
      var init := text[..|text| - 1];
      MeasuredWidthCons(box, fonts, init);
      assert init[1..] == text[1..][..|text[1..]| - 1];
      assert init[0] == text[0];
    } else {
      assert text[..0] == [];
      assert text[1..] == [];
    }
  }

  /** A glyph whose box starts one pixel right of the origin: the measured width
      and the pen advance of a single glyph then differ by that offset. */
  function OffsetBox(f: Font, c: char, x: int, y: int): Box {
    Box(x + 1, y, x + 10, y + 12)
  }

  lemma OffsetGlyphAdvanceDiffersFromWidth(fonts: FontPair)
    ensures EndX(OffsetBox, fonts, 0, 0, "A") == 11
    ensures MeasuredWidth(OffsetBox, fonts, "A") == 10
  {
    assert "A"[1..] == [];
    assert "A"[..0] == [];
  }

  /** Empty text draws nothing and returns the anchor, whatever the alignment. */
  lemma EmptyTextReturnsAnchor(box: GlyphBox, fonts: FontPair, anchor: int, y: int, color: int, align: Align)
    ensures StartX(anchor, MeasuredWidth(box, fonts, ""), align) == anchor
    ensures Placed(box, fonts, anchor, y, "", color) == []
    ensures EndX(box, fonts, anchor, y, "") == anchor
  {
  }

  /** Every drawn glyph is set in the font its code point selects. */
  lemma {:induction false} PlacedFonts(box: GlyphBox, fonts: FontPair, x: int, y: int, text: string, color: int, i: nat)
    requires i < |text|
    ensures |Placed(box, fonts, x, y, text, color)| == |text|
    ensures var g := Placed(box, fonts, x, y, text, color)[i];
            g.ch == text[i] && g.y == y && g.color == color
            && (g.font == if (text[i] as int) < 128 then fonts.en else fonts.cn)
    decreases |text|
  {
    var f := FontFor(fonts, text[0]);
    if i == 0 {
      PlacedLength(box, fonts, box(f, text[0], x, y).right + 1, y, text[1..], color);
    } else {
      PlacedFonts(box, fonts, box(f, text[0], x, y).right + 1, y, text[1..], color, i - 1);
    }
  }

  lemma {:induction false} PlacedLength(box: GlyphBox, fonts: FontPair, x: int, y: int, text: string, color: int)
    ensures |Placed(box, fonts, x, y, text, color)| == |text|
    decreases |text|
  {
    if text != [] {
      PlacedLength(box, fonts, box(FontFor(fonts, text[0]), text[0], x, y).right + 1, y, text[1..], color);
    }
  }
}
