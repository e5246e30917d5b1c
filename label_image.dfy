/**
  The label renderer: `create_label_im` in brother_ql_web/__init__.py.
  Empty text lines become a single space, the text is measured, the canvas of
  an endless label grows along the feed direction to fit it, and the draw
  offset is chosen by label kind and orientation. Measuring is PIL's
  `multiline_textsize` and is a parameter here; drawing is described by the
  `Label` value the renderer would hand to PIL.
 */
module LabelImage {
  import opened Wrappers
  import opened PyText
  import opened LabelContext

  /** The measured `(width, height)` of a multi-line text in the chosen font. */
  datatype TextSize = TextSize(width: int, height: int)

  /**
    The rendered label: a white RGB canvas of `width` by `height` pixels with
    `text` drawn at `offset` (horizontal, vertical) in the given colour,
    alignment, font file and size.
   */
  datatype Label = Label(
    width: int,
    height: int,
    offset: (int, int),
    text: string,
    fillColor: Rgb,
    align: string,
    fontPath: string,
    fontSize: int)

  /** One line as drawn: an empty line is replaced by a single space. */
  function SpaceIfEmpty(line: string): string {
    if line == "" then " " else line
  }

  /**
    The text as measured and drawn: its lines with every empty line made a
    single space. Normalising keeps the number of lines, leaves every
    non-empty line as it is, turns every empty line into `" "`, and so leaves
    no line empty.
   */
  function NormalizedText(text: string): (normalized: string)
    ensures var lines := Split(text);
            var out := Split(normalized);
            && |out| == |lines|
            && (forall k :: 0 <= k < |lines| && lines[k] != "" ==> out[k] == lines[k])
            && (forall k :: 0 <= k < |lines| && lines[k] == "" ==> out[k] == " ")
            && (forall k :: 0 <= k < |out| ==> out[k] != "")
  {
    var lines := Split(text);
    var blanked := seq(|lines|, k requires 0 <= k < |lines| => SpaceIfEmpty(lines[k]));
    assert forall k :: 0 <= k < |blanked| ==> '\n' !in blanked[k];
    SplitJoin(blanked);
    Join(blanked)
  }

  /** Normalising an already normalised text changes nothing. */
  lemma NormalizedTextIdempotent(text: string)
    ensures NormalizedText(NormalizedText(text)) == NormalizedText(text)
  {
    var n := NormalizedText(text);
    var lines := Split(n);
    var blanked := seq(|lines|, k requires 0 <= k < |lines| => SpaceIfEmpty(lines[k]));
    assert blanked == lines;
    JoinSplit(n);
  }

  /** `"A\n\nB"` is drawn and measured exactly as `"A\n \nB"`. */
  lemma EmptyLineIsDrawnAsSpace()
    ensures NormalizedText("A\n\nB") == "A\n \nB"
    ensures NormalizedText("A\n \nB") == "A\n \nB"
  {
    assert Join(["A", "", "B"]) == "A\n\nB";
    SplitJoin(["A", "", "B"]);
    var blanked := seq(3, k requires 0 <= k < 3 => SpaceIfEmpty(["A", "", "B"][k]));
    assert blanked == ["A", " ", "B"];
    assert Join(["A", " ", "B"]) == "A\n \nB";
    SplitJoin(["A", " ", "B"]);
    var same := seq(3, k requires 0 <= k < 3 => SpaceIfEmpty(["A", " ", "B"][k]));
    assert same == ["A", " ", "B"];
  }

  /** The loop that rebuilds the text line by line, replacing each empty line by `" "`. */
  method NormalizeText(text: string) returns (normalized: string)
    ensures normalized == NormalizedText(text)
    ensures |Split(normalized)| == |Split(text)|
    ensures forall k :: 0 <= k < |Split(text)| ==>
              Split(normalized)[k] == (if Split(text)[k] == "" then " " else Split(text)[k])
  {
    var parts := Split(text);
    var lines: seq<string> := [];
    for i := 0 to |parts|
      invariant |lines| == i
      invariant forall k :: 0 <= k < i ==> lines[k] == SpaceIfEmpty(parts[k])
    {
      var line := parts[i];
      if line == "" {
        line := " ";
      }
      lines := lines + [line];
    }
    assert lines == seq(|parts|, k requires 0 <= k < |parts| => SpaceIfEmpty(parts[k]));
    normalized := Join(lines);
  }

  function Max(a: int, b: int): int {
    if a >= b then a else b
  }

  /**
    The final canvas `(width, height)`: an endless label grows to the text
    height plus the top and bottom margins (standard) or to the text width plus
    the left and right margins (rotated); otherwise it keeps the context's size.
   */
  function CanvasSize(c: Context, ts: TextSize): (size: (int, int))
    ensures c.kind != Endless ==> size == (c.width, c.height)
    ensures c.orientation != "rotated" ==> size.0 == c.width
    ensures c.orientation != "standard" ==> size.1 == c.height
    ensures c.kind == Endless && c.orientation == "standard" ==> size.1 - c.marginTop - c.marginBottom == ts.height
    ensures c.kind == Endless && c.orientation == "rotated" ==> size.0 - c.marginLeft - c.marginRight == ts.width
  {
    if c.orientation == "standard" && c.kind == Endless then
      (c.width, ts.height + c.marginTop + c.marginBottom)
    else if c.orientation == "rotated" && c.kind == Endless then
      (ts.width + c.marginLeft + c.marginRight, c.height)
    else
      (c.width, c.height)
  }

  /**
    The `(horizontal, vertical)` draw offset on a canvas of `size`. Python's
    `// 2` floors, as Dafny's `/ 2` does. An orientation other than `standard`
    and `rotated` leaves both offsets unassigned, and reading
    `horizontal_offset` first raises `UnboundLocalError`.
   */
  function DrawOffset(c: Context, size: (int, int), ts: TextSize): (off: Result<(int, int), Error>)
    ensures off.Success? <==> c.orientation == "standard" || c.orientation == "rotated"
    ensures off.Failure? ==> off.error == UnboundLocalError("horizontal_offset")
    ensures off.Success? && c.kind == Endless ==>
              (c.orientation == "standard" ==> off.value.1 == c.marginTop)
              && (c.orientation == "rotated" ==> off.value.0 == c.marginLeft)
  {
    var centredH := Max((size.0 - ts.width) / 2, 0);
    var centredV := (size.1 - ts.height) / 2 + (c.marginTop - c.marginBottom) / 2;
    if c.orientation == "standard" then
      Success((centredH, if c.kind == DieCut || c.kind == RoundDieCut then centredV else c.marginTop))
    else if c.orientation == "rotated" then
      Success((if c.kind == DieCut || c.kind == RoundDieCut then centredH else c.marginLeft, centredV))
    else
      Failure(UnboundLocalError("horizontal_offset"))
  }

  /** A die-cut label's canvas is its stock size, whatever the text. */
  lemma DieCutCanvasIgnoresText(c: Context, ts1: TextSize, ts2: TextSize)
    requires c.kind == DieCut || c.kind == RoundDieCut
    ensures CanvasSize(c, ts1) == CanvasSize(c, ts2) == (c.width, c.height)
  {
  }

  /**
    Endless, standard: the label keeps its width and is exactly as tall as the
    text plus the top and bottom margins; the text starts `marginTop` from the
    top and so ends exactly `marginBottom` from the bottom.
   */
  lemma EndlessStandardLayout(c: Context, ts: TextSize)
    requires c.kind == Endless && c.orientation == "standard"
    ensures var size := CanvasSize(c, ts);
            var off := DrawOffset(c, size, ts);
            && size.0 == c.width
            && size.1 == ts.height + c.marginTop + c.marginBottom
            && off.Success?
            && off.value.1 == c.marginTop
            && size.1 - (off.value.1 + ts.height) == c.marginBottom
  {
  }

  /**
    Endless, rotated: the label keeps its height and is exactly as wide as the
    text plus the left and right margins; the text starts `marginLeft` from the
    left edge and ends exactly `marginRight` from the right edge.
   */
  lemma EndlessRotatedLayout(c: Context, ts: TextSize)
    requires c.kind == Endless && c.orientation == "rotated"
    ensures var size := CanvasSize(c, ts);
            var off := DrawOffset(c, size, ts);
            && size.1 == c.height
            && size.0 == ts.width + c.marginLeft + c.marginRight
            && off.Success?
            && off.value.0 == c.marginLeft
            && size.0 - (off.value.0 + ts.width) == c.marginRight
  {
  }

  /**
    Everywhere but on a rotated endless label the text is centred
    horizontally: the offset is never negative, the gaps left and right of a
    text that fits differ by at most one pixel, and a text wider than the
    canvas is pinned to the left edge.
   */
  lemma HorizontalCentring(c: Context, size: (int, int), ts: TextSize)
    requires c.orientation == "standard" || (c.orientation == "rotated" && c.kind != Endless)
    ensures var off := DrawOffset(c, size, ts);
            && off.Success?
            && off.value.0 >= 0
            && (ts.width <= size.0 ==>
                  var left := off.value.0;
                  var right := size.0 - ts.width - left;
                  left <= right <= left + 1)
            && (ts.width > size.0 ==> off.value.0 == 0)
  {
  }

  /**
    On a die-cut label, and on a rotated endless one, the text is centred
    vertically and then shifted by half the difference of the top and bottom
    margins, each half rounded down: the gap above minus the gap below is that
    difference, less one pixel for each of the two halvings that drops a
    remainder, so never more than two.
   */
  lemma VerticalCentring(c: Context, size: (int, int), ts: TextSize)
    requires || (c.kind != Endless && (c.orientation == "standard" || c.orientation == "rotated"))
             || (c.kind == Endless && c.orientation == "rotated")
    ensures var off := DrawOffset(c, size, ts);
            && off.Success?
            && var above := off.value.1;
               var below := size.1 - ts.height - above;
               && above - below
                  == (c.marginTop - c.marginBottom) - (size.1 - ts.height) % 2 - (c.marginTop - c.marginBottom) % 2
               && c.marginTop - c.marginBottom - 2 <= above - below <= c.marginTop - c.marginBottom
  {
  }

  /**
    `create_label_im`. Fails with `AttributeError` when the context has no
    text (`None.split`) and with `UnboundLocalError` for an unknown
    orientation; otherwise the label carries the normalised text, the canvas
    grown for an endless label, and the draw offset of its kind and
    orientation, measured on that same normalised text.
   */
  method CreateLabelIm(c: Context, measure: string -> TextSize) returns (r: Result<Label, Error>)
    ensures c.text.None? ==> r == Failure(AttributeError)
    ensures c.text.Some? ==> (r.Success? <==> c.orientation == "standard" || c.orientation == "rotated")
    ensures c.text.Some? && r.Failure? ==> r.error == UnboundLocalError("horizontal_offset")
    ensures r.Success? ==>
              var l := r.value;
              var ts := measure(l.text);
              && c.text.Some?
              && l.text == NormalizedText(c.text.value)
              && (l.width, l.height) == CanvasSize(c, ts)
              && DrawOffset(c, (l.width, l.height), ts) == Success(l.offset)
              && l.fillColor == c.fillColor
              && l.align == c.align
              && l.fontPath == c.fontPath
              && l.fontSize == c.fontSize
  {
    if c.text.None? {
      return Failure(AttributeError);
    }
    var text := NormalizeText(c.text.value);
    var textSize := measure(text);
    var width, height := c.width, c.height;
    if c.orientation == "standard" {
      if c.kind == Endless {
        height := textSize.height + c.marginTop + c.marginBottom;
      }
    } else if c.orientation == "rotated" {
      if c.kind == Endless {
        width := textSize.width + c.marginLeft + c.marginRight;
      }
    }
    var horizontal, vertical;
    if c.orientation == "standard" {
      if c.kind == DieCut || c.kind == RoundDieCut {
        vertical := (height - textSize.height) / 2;
        vertical := vertical + (c.marginTop - c.marginBottom) / 2;
      } else {
        vertical := c.marginTop;
      }
      horizontal := Max((width - textSize.width) / 2, 0);
    } else if c.orientation == "rotated" {
      vertical := (height - textSize.height) / 2;
      vertical := vertical + (c.marginTop - c.marginBottom) / 2;
      if c.kind == DieCut || c.kind == RoundDieCut {
        horizontal := Max((width - textSize.width) / 2, 0);
      } else {
        horizontal := c.marginLeft;
      }
    } else {
      return Failure(UnboundLocalError("horizontal_offset"));
    }
    r := Success(Label(width, height, (horizontal, vertical), text, c.fillColor, c.align, c.fontPath, c.fontSize));
  }
}
