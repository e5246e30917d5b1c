/**
  The parameter resolver: `get_label_context` in brother_ql_web/__init__.py.
  A flat map of request parameters becomes a label context: font family and
  style, font size, margins in pixels, fill colour, font file and the canvas
  dimensions of the chosen label stock in the chosen orientation.
 */
module LabelContext {
  import opened Wrappers
  import opened PyText

  /** The three label kinds of brother_ql's `label_type_specs` catalog. */
  datatype LabelKind = Endless | DieCut | RoundDieCut

  /** One catalog entry: its kind and its printable area in dots, `(width, height)`. */
  datatype LabelSpec = LabelSpec(kind: LabelKind, dotsPrintable: (nat, nat))

  /** `label_type_specs`: label size identifier to stock specification. */
  type Catalog = map<string, LabelSpec>

  /** `FONTS`: family name to style name to font file path. */
  type FontTable = map<string, map<string, string>>

  /** The decoded request parameters (`request.params.decode()`). */
  type Params = map<string, string>

  datatype FontChoice = FontChoice(family: string, style: string)

  datatype Rgb = Rgb(red: int, green: int, blue: int)

  const RED := Rgb(255, 0, 0)
  const BLACK := Rgb(0, 0, 0)

  /** The message of the font lookup failure, spelt as the program spells it. */
  const FONT_NOT_FOUND := "Couln't find the font & style"
  const UNKNOWN_LABEL_SIZE := "Unknown label_size"

  /** The Python exceptions the layout code can raise. */
  datatype Error =
    | AttributeError               // a method called on `None`
    | ValueError(key: string)      // `int(...)` or `float(...)` rejected the parameter `key`
    | KeyError(key: string)        // `label_type_specs[key]` with an unknown key
    | LookupError(message: string)
    | UnboundLocalError(name: string)

  /** The resolved layout context, one field per key of the program's `context` dict. */
  datatype Context = Context(
    text: Option<string>,
    fontSize: int,
    fontFamily: string,
    fontStyle: string,
    labelSize: string,
    kind: LabelKind,
    margin: int,
    threshold: int,
    align: string,
    orientation: string,
    marginTop: int,
    marginBottom: int,
    marginLeft: int,
    marginRight: int,
    fillColor: Rgb,
    fontPath: string,
    width: int,
    height: int)

  /** `d.get(key, default)` for a text parameter. */
  function StrParam(d: Params, key: string, default: string): (v: string)
    ensures key in d ==> v == d[key]
    ensures key !in d ==> v == default
  {
    if key in d then d[key] else default
  }

  /**
    `int(d.get(key, default))`: `None` stands for the `ValueError` of unparsable
    text. An absent key yields the default; a present value is accepted exactly
    when it is an integer literal, and yields that literal's value. So a blank
    value is rejected, and a value written as `str(n)` reads back as `n`.
   */
  function IntParam(d: Params, key: string, default: int): (v: Option<int>)
    ensures key !in d ==> v == Some(default)
    ensures key in d && AllSpace(d[key]) ==> v.None?
    ensures forall n :: key in d && d[key] == ShowInt(n) ==> v == Some(n)
    ensures key in d ==> (v.Some? <==> IsIntText(d[key]))
    ensures key in d && v.Some? ==> exists pre, sign, ds, post :: IntLiteral(d[key], v.value, pre, sign, ds, post)
  {
    if key in d then
      ParseIntCases(d[key]);
      ParseIntAccepts(d[key]);
      ParseInt(d[key])
    else Some(default)
  }

  /** Every numeric parameter the resolver converts is absent or parses. */
  predicate NumbersParse(d: Params) {
    && IntParam(d, "font_size", 100).Some?
    && IntParam(d, "margin", 10).Some?
    && IntParam(d, "threshold", 70).Some?
    && IntParam(d, "margin_top", 24).Some?
    && IntParam(d, "margin_bottom", 45).Some?
    && IntParam(d, "margin_left", 35).Some?
    && IntParam(d, "margin_right", 35).Some?
  }

  /**
    The steps up to line 94 succeeded: the font string exists, `font_size`
    parses and the label size is in the catalog. The remaining numeric
    parameters are read after this, in the order of the `context` dict.
   */
  predicate LabelSizeKnown(d: Params, catalog: Catalog) {
    && "font_family" in d
    && IntParam(d, "font_size", 100).Some?
    && StrParam(d, "label_size", "62") in catalog
  }

  /**
    Splits the combined `"Family (Style)"` string at its last `(`: the family
    is the text before it with surrounding whitespace stripped, the style the
    text after it with every trailing `)` removed (and not stripped). Without a
    `(` the family is empty and the whole string, less its trailing `)`, is the
    style.
   */
  function SplitFontFamily(combined: string): (c: FontChoice)
    ensures c.family == [] || (!IsSpace(c.family[0]) && !IsSpace(c.family[|c.family| - 1]))
    ensures '(' !in c.style
    ensures c.style == [] || c.style[|c.style| - 1] != ')'
  {
    var parts := RPartition(combined, '(');
    RStripCharKeepsAbsent(parts.2, ')', '(');
    FontChoice(Strip(parts.0), RStripChar(parts.2, ')'))
  }

  /** The family is the stripped text before the last `(`, or empty when there is none. */
  lemma SplitFontFamilyFamily(combined: string)
    ensures var k := LastIndexOf(combined, '(');
            && (k >= 0 ==> SplitFontFamily(combined).family == Strip(combined[..k]))
            && (k < 0 ==> SplitFontFamily(combined).family == "")
  {
    var k := LastIndexOf(combined, '(');
    if k >= 0 {
      assert RPartition(combined, '(').0 == combined[..k];
    }
  }

  /**
    The style is the text after the last `(` (the whole string when there is
    none) up to a final run of `)`: it holds no `(` and does not end in `)`.
   */
  lemma SplitFontFamilyStyle(combined: string)
    ensures var style := SplitFontFamily(combined).style;
            var tail := RPartition(combined, '(').2;
            && '(' !in style
            && (style == [] || style[|style| - 1] != ')')
            && tail[..|style|] == style
            && (forall i :: |style| <= i < |tail| ==> tail[i] == ')')
  {
    var tail := RPartition(combined, '(').2;
    var style := RStripChar(tail, ')');
    forall j | 0 <= j < |style| ensures style[j] != '(' {
      assert style[j] == tail[j];
    }
  }

  /** The label designer's `"Family (Style)"` string splits back into its family and style. */
  lemma SplitFontFamilyRoundTrip(family: string, style: string)
    requires family == [] || (!IsSpace(family[0]) && !IsSpace(family[|family| - 1]))
    requires '(' !in style
    requires style == [] || style[|style| - 1] != ')'
    ensures SplitFontFamily(family + " (" + style + ")") == FontChoice(family, style)
  {
    var head, tail := family + " ", style + ")";
    assert family + " (" + style + ")" == head + ['('] + tail;
    assert '(' !in tail by {
      forall i | 0 <= i < |tail| ensures tail[i] != '(' {
        if i < |style| {
          assert tail[i] == style[i];
        }
      }
    }
    RPartitionAt(head, '(', tail);
    StripPadded([], family, " ");
    assert [] + family + " " == head;
    RStripCharAppended(style, ')');
  }

  /** The family and style split from `combined` name a file of the font table. */
  predicate FontInTable(fonts: FontTable, combined: string) {
    var c := SplitFontFamily(combined);
    c.family in fonts && c.style in fonts[c.family]
  }

  /** Python's `int(x / d)` for a positive divisor: the quotient truncated toward zero. */
  function TruncDiv(x: int, d: int): int
    requires d > 0
  {
    if x >= 0 then x / d else -((-x) / d)
  }

  /**
    A margin given in percent of the font size, in whole pixels, truncated
    toward zero as `int(...)` truncates.
   */
  function MarginPixels(fontSize: int, percent: int): (px: int)
    ensures var x := fontSize * percent;
            && (x >= 0 ==> 0 <= 100 * px <= x < 100 * px + 100)
            && (x < 0 ==> 100 * px - 100 < x <= 100 * px <= 0)
  {
    TruncDiv(fontSize * percent, 100)
  }

  /** Without margin parameters and at the default font size the margins are 24, 45, 35 and 35 pixels. */
  lemma DefaultMarginPixels()
    ensures MarginPixels(100, 24) == 24
    ensures MarginPixels(100, 45) == 45
    ensures MarginPixels(100, 35) == 35
  {
  }

  /** Red ink exactly for label sizes whose identifier contains `red`, black otherwise. */
  function FillColor(labelSize: string): (color: Rgb)
    ensures color == RED || color == BLACK
  {
    if Contains(labelSize, "red") then RED else BLACK
  }

  lemma FillColorIsRedIff(labelSize: string)
    ensures FillColor(labelSize) == RED <==> exists i :: OccursAt(labelSize, "red", i)
    ensures FillColor(labelSize) == BLACK <==> !exists i :: OccursAt(labelSize, "red", i)
  {
    ContainsIff(labelSize, "red");
  }

  lemma FillColorExamples()
    ensures FillColor("62red") == RED
    ensures FillColor("62") == BLACK
  {
    assert OccursAt("62red", "red", 2);
    FillColorIsRedIff("62red");
    FillColorIsRedIff("62");
  }

  /**
    `get_font_path`: the font file of the requested family and style; when
    either is `None` the configured default font is looked up instead. A
    missing family or style fails with the font lookup error.
   */
  function GetFontPath(fonts: FontTable, default: FontChoice, family: Option<string>, style: Option<string>)
    : (r: Result<string, Error>)
    ensures var f := if family.None? || style.None? then default else FontChoice(family.value, style.value);
            && (r.Success? <==> f.family in fonts && f.style in fonts[f.family])
            && (r.Success? ==> r.value == fonts[f.family][f.style])
            && (r.Failure? ==> r.error == LookupError(FONT_NOT_FOUND))
  {
    var f := if family.None? || style.None? then default else FontChoice(family.value, style.value);
    if f.family in fonts && f.style in fonts[f.family] then Success(fonts[f.family][f.style])
    else Failure(LookupError(FONT_NOT_FOUND))
  }

  /** `get_label_dimensions`: the printable dots of a known label size. */
  function LabelDimensions(catalog: Catalog, labelSize: string): (r: Result<(nat, nat), Error>)
    ensures r.Success? <==> labelSize in catalog
    ensures r.Success? ==> r.value == catalog[labelSize].dotsPrintable
    ensures r.Failure? ==> r.error == LookupError(UNKNOWN_LABEL_SIZE)
  {
    if labelSize in catalog then Success(catalog[labelSize].dotsPrintable)
    else Failure(LookupError(UNKNOWN_LABEL_SIZE))
  }

  /**
    Lines 131-134: the printable area is put in landscape form, then turned to
    portrait for a rotated label. The two sides are the stock's own.
   */
  method OrientDimensions(dots: (nat, nat), orientation: string) returns (width: int, height: int)
    ensures multiset{width, height} == multiset{dots.0, dots.1}
    ensures orientation != "rotated" ==> width >= height
    ensures orientation == "rotated" ==> height >= width
  {
    width, height := dots.0, dots.1;
    if height > width {
      width, height := height, width;
    }
    if orientation == "rotated" {
      height, width := width, height;
    }
  }

  /**
    `get_label_context`. The font string is split first (a missing
    `font_family` is `None.rpartition`, an `AttributeError`); then the
    parameters are read in the order of the `context` dict, each conversion
    failing with `ValueError` and the label size indexing the catalog (a
    `KeyError` for an unknown size); then the margins are turned into pixels,
    the fill colour and font file chosen, and the stock dimensions put in
    landscape form and swapped for a rotated label.
   */
  method GetLabelContext(d: Params, fonts: FontTable, defaultFont: FontChoice, catalog: Catalog)
    returns (r: Result<Context, Error>)
    // the order in which failures surface
    ensures "font_family" !in d ==> r == Failure(AttributeError)
    ensures "font_family" in d && IntParam(d, "font_size", 100).None? ==> r == Failure(ValueError("font_size"))
    ensures "font_family" in d && IntParam(d, "font_size", 100).Some? && StrParam(d, "label_size", "62") !in catalog
            ==> r == Failure(KeyError(StrParam(d, "label_size", "62")))
    ensures LabelSizeKnown(d, catalog) && IntParam(d, "margin", 10).None?
            ==> r == Failure(ValueError("margin"))
    ensures LabelSizeKnown(d, catalog) && IntParam(d, "margin", 10).Some?
            && IntParam(d, "threshold", 70).None?
            ==> r == Failure(ValueError("threshold"))
    ensures LabelSizeKnown(d, catalog) && IntParam(d, "margin", 10).Some?
            && IntParam(d, "threshold", 70).Some?
            && IntParam(d, "margin_top", 24).None?
            ==> r == Failure(ValueError("margin_top"))
    ensures LabelSizeKnown(d, catalog) && IntParam(d, "margin", 10).Some?
            && IntParam(d, "threshold", 70).Some?
            && IntParam(d, "margin_top", 24).Some?
            && IntParam(d, "margin_bottom", 45).None?
            ==> r == Failure(ValueError("margin_bottom"))
    ensures LabelSizeKnown(d, catalog) && IntParam(d, "margin", 10).Some?
            && IntParam(d, "threshold", 70).Some?
            && IntParam(d, "margin_top", 24).Some?
            && IntParam(d, "margin_bottom", 45).Some?
            && IntParam(d, "margin_left", 35).None?
            ==> r == Failure(ValueError("margin_left"))
    ensures LabelSizeKnown(d, catalog) && IntParam(d, "margin", 10).Some?
            && IntParam(d, "threshold", 70).Some?
            && IntParam(d, "margin_top", 24).Some?
            && IntParam(d, "margin_bottom", 45).Some?
            && IntParam(d, "margin_left", 35).Some?
            && IntParam(d, "margin_right", 35).None?
            ==> r == Failure(ValueError("margin_right"))
    // every number parses: only the font lookup of line 121 is left to fail
    ensures LabelSizeKnown(d, catalog) && NumbersParse(d) && !FontInTable(fonts, d["font_family"])
            ==> r == Failure(LookupError(FONT_NOT_FOUND))
    ensures r.Failure? && r.error.ValueError? ==> r.error.key in d && ParseInt(d[r.error.key]).None?
    // the only LookupError raised by name is the font one: an unknown size fails earlier, as a KeyError
    ensures r.Failure? && r.error.LookupError? ==> r.error.message == FONT_NOT_FOUND
    ensures r.Failure? ==> r.error != LookupError(UNKNOWN_LABEL_SIZE)
    ensures r.Success? <==>
              && "font_family" in d
              && NumbersParse(d)
              && StrParam(d, "label_size", "62") in catalog
              && var c := SplitFontFamily(d["font_family"]);
                 c.family in fonts && c.style in fonts[c.family]
    // the default font is never consulted: the split never yields None
    ensures r.Failure? && r.error.LookupError? ==>
              var c := SplitFontFamily(d["font_family"]);
              !(c.family in fonts && c.style in fonts[c.family])
    ensures r.Success? ==>
              && r.value.labelSize == StrParam(d, "label_size", "62")
              && r.value.labelSize in catalog
              && r.value.kind == catalog[r.value.labelSize].kind
              && r.value.text == (if "text" in d then Some(d["text"]) else None)
              && FontChoice(r.value.fontFamily, r.value.fontStyle) == SplitFontFamily(d["font_family"])
              && r.value.fontFamily in fonts && r.value.fontStyle in fonts[r.value.fontFamily]
              && r.value.fontPath == fonts[r.value.fontFamily][r.value.fontStyle]
    ensures r.Success? ==>
              && r.value.fontSize == IntParam(d, "font_size", 100).value
              && r.value.margin == IntParam(d, "margin", 10).value
              && r.value.threshold == IntParam(d, "threshold", 70).value
              && r.value.align == StrParam(d, "align", "center")
              && r.value.orientation == StrParam(d, "orientation", "standard")
    ensures r.Success? ==>
              && r.value.marginTop == MarginPixels(r.value.fontSize, IntParam(d, "margin_top", 24).value)
              && r.value.marginBottom == MarginPixels(r.value.fontSize, IntParam(d, "margin_bottom", 45).value)
              && r.value.marginLeft == MarginPixels(r.value.fontSize, IntParam(d, "margin_left", 35).value)
              && r.value.marginRight == MarginPixels(r.value.fontSize, IntParam(d, "margin_right", 35).value)
    // without size or margin parameters the margins are 24, 45, 35 and 35 pixels
    ensures r.Success? && "font_size" !in d
            && "margin_top" !in d && "margin_bottom" !in d && "margin_left" !in d && "margin_right" !in d
            ==> (r.value.marginTop, r.value.marginBottom, r.value.marginLeft, r.value.marginRight) == (24, 45, 35, 35)
    ensures r.Success? ==>
              && (r.value.fillColor == RED <==> Contains(r.value.labelSize, "red"))
              && (r.value.fillColor == BLACK <==> !Contains(r.value.labelSize, "red"))
    // the canvas is the printable area of the stock, landscape unless rotated
    ensures r.Success? ==>
              var c := r.value;
              var dots := catalog[c.labelSize].dotsPrintable;
              && multiset{c.width, c.height} == multiset{dots.0, dots.1}
              && (c.orientation != "rotated" ==> c.width >= c.height)
              && (c.orientation == "rotated" ==> c.height >= c.width)
  {
    if "font_family" !in d {
      return Failure(AttributeError);
    }
    var font := SplitFontFamily(d["font_family"]);
    var fontSize := IntParam(d, "font_size", 100);
    if fontSize.None? {
      return Failure(ValueError("font_size"));
    }
    var labelSize := StrParam(d, "label_size", "62");
    if labelSize !in catalog {
      return Failure(KeyError(labelSize));
    }
    var kind := catalog[labelSize].kind;
    var margin := IntParam(d, "margin", 10);
    if margin.None? {
      return Failure(ValueError("margin"));
    }
    var threshold := IntParam(d, "threshold", 70);
    if threshold.None? {
      return Failure(ValueError("threshold"));
    }
    var align := StrParam(d, "align", "center");
    var orientation := StrParam(d, "orientation", "standard");
    var top := IntParam(d, "margin_top", 24);
    if top.None? {
      return Failure(ValueError("margin_top"));
    }
    var bottom := IntParam(d, "margin_bottom", 45);
    if bottom.None? {
      return Failure(ValueError("margin_bottom"));
    }
    var left := IntParam(d, "margin_left", 35);
    if left.None? {
      return Failure(ValueError("margin_left"));
    }
    var right := IntParam(d, "margin_right", 35);
    if right.None? {
      return Failure(ValueError("margin_right"));
    }

    var marginTop := MarginPixels(fontSize.value, top.value);
    var marginBottom := MarginPixels(fontSize.value, bottom.value);
    var marginLeft := MarginPixels(fontSize.value, left.value);
    var marginRight := MarginPixels(fontSize.value, right.value);
    DefaultMarginPixels();

    var fillColor := FillColor(labelSize);

    var fontPath := GetFontPath(fonts, defaultFont, Some(font.family), Some(font.style));
    if fontPath.Failure? {
      return Failure(fontPath.error);
    }

    // the size is known to the catalog since line 94, so this lookup succeeds
    var dims := LabelDimensions(catalog, labelSize);
    var width, height := OrientDimensions(dims.value, orientation);

    var text := if "text" in d then Some(d["text"]) else None;
    r := Success(Context(
      text := text,
      fontSize := fontSize.value,
      fontFamily := font.family,
      fontStyle := font.style,
      labelSize := labelSize,
      kind := kind,
      margin := margin.value,
      threshold := threshold.value,
      align := align,
      orientation := orientation,
      marginTop := marginTop,
      marginBottom := marginBottom,
      marginLeft := marginLeft,
      marginRight := marginRight,
      fillColor := fillColor,
      fontPath := fontPath.value,
      width := width,
      height := height));
  }
}
