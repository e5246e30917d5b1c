# brother_ql_web label layout, modelled in Dafny

brother_ql_web is a small web front end for Brother QL label printers. It
renders one text label into a raster image, which a printer-protocol encoder
then sends to the printer. This project models the label layout engine in
`brother_ql_web/__init__.py`. The engine has two parts:

- **the parameter resolver** `get_label_context`. It turns the decoded request
  parameters into a layout context. It splits the `"Family (Style)"` font
  string, applies defaults, and turns margin percentages into pixels. It
  picks red or black ink from the label size name and looks up the font file
  and the label stock. It then puts the stock's printable area in landscape
  form and swaps it for a rotated label.
- **the renderer** `create_label_im`. It replaces each empty text line with a
  single space and measures the text. The canvas of an endless label grows to
  fit the text; a die-cut label keeps its size. It then places the text by
  label kind and orientation.

The rotation and red-ink choices that `print_text` passes to the encoder are
modelled too.

Files:

- `wrappers.dfy`: `Option` and `Result`.
- `py_text.dfy` (module `PyText`): the Python string operations the engine
  uses, with their contracts. These are `strip`, `rstrip(")")`, `rpartition("(")`,
  the `in` substring test, `split("\n")` and `"\n".join`, and `int()` on text.
- `label_context.dfy` (module `LabelContext`): the resolver.
- `label_image.dfy` (module `LabelImage`): the renderer.
- `print_text.dfy` (module `PrintText`): the rotation and red flag for printing.

Python exceptions become `Failure` values of `LabelContext.Error`. These are
`AttributeError`, `ValueError`, `KeyError`, `LookupError` and
`UnboundLocalError`. The font table `FONTS`, the configured default font and
brother_ql's `label_type_specs` catalog are parameters. PIL's
`multiline_textsize` is a parameter `measure: string -> TextSize`. Drawing is
described by the `Label` value handed to PIL: canvas size, offset, text,
colour, alignment, font file and size.

## Behaviour the model follows from the code

- Only the family is whitespace-stripped. The style is the text after the last
  `(` with trailing `)` removed, and is not stripped (lines 86-87).
- `rpartition` never yields `None`, so the default-font fallback at lines
  113-115 is never taken from line 121. A family and style missing from the
  font table always fail with `LookupError("Couln't find the font & style")`,
  spelt as the program spells it. `GetLabelContext` states this.
- An unknown label size fails at line 94 as `KeyError`, a subclass of
  `LookupError`. This happens before the font lookup and before the margins
  are read. The `"Unknown label_size"` error at lines 124-127 can never be
  raised; `GetLabelContext` states this too.
- A missing `font_family` parameter makes line 86 call `rpartition` on `None`:
  an `AttributeError`. A context without text makes line 148 fail the same way.
- An orientation other than `standard` or `rotated` leaves both offsets
  unassigned. Line 179 reads `horizontal_offset` first and raises
  `UnboundLocalError`.
- Every `// 2` in the offset code is Python floor division. It agrees with
  Dafny's `/` for the positive divisor 2, so negative gaps round the same way
  in every branch.

## Model

| member | source | states |
|---|---|---|
| PyText.Strip | brother_ql_web/__init__.py:86 | the result neither starts nor ends with whitespace, and the input is the result with only whitespace before and after it |
| PyText.RStripChar | brother_ql_web/__init__.py:87 | the result is a prefix of the input, everything dropped is `)`, and the result does not end in `)` |
| PyText.RPartition | brother_ql_web/__init__.py:86-87 | head, separator and tail concatenate to the input; the tail holds no `(`; without a `(` the head and separator are empty |
| PyText.ContainsIff | brother_ql_web/__init__.py:109 | the `in` substring test holds exactly when the pattern occurs at some index |
| PyText.Split | brother_ql_web/__init__.py:148 | `split("\n")` always yields at least one line and no line holds a newline; `JoinSplit` and `SplitJoin` make it the inverse of `Join` |
| PyText.Join | brother_ql_web/__init__.py:152 | `"\n".join`: its contract is the inverse pair `JoinSplit` and `SplitJoin` with `Split` |
| PyText.JoinSplit | brother_ql_web/__init__.py:148-152 | joining the lines of a text with newlines gives the text back |
| PyText.SplitJoin | brother_ql_web/__init__.py:148-152 | splitting the newline-join of one or more newline-free lines gives those lines back |
| PyText.ParseInt | brother_ql_web/__init__.py:90 | `int()` on text; `ParseIntIff` and `ParseIntAccepts` characterise it both ways: it accepts exactly the integer literals and yields their value |
| PyText.ParseIntIff | brother_ql_web/__init__.py:90 | `int()` yields `n` exactly when the text is whitespace, an optional `+` or `-`, one or more decimal digits with that signed value `n`, and whitespace; any other text, such as `12px`, `1.5` or `abc`, is a `ValueError` |
| PyText.ParseIntAccepts | brother_ql_web/__init__.py:90 | `int()` succeeds exactly on integer literals, and its value is the value of the literal the text spells |
| PyText.ParseIntCases | brother_ql_web/__init__.py:90 | `int()` of blank text is a `ValueError`, and text written as `str(n)` reads back as `n` |
| PyText.ParseIntShowInt | brother_ql_web/__init__.py:90 | `int()` reads back every decimal integer, with or without surrounding whitespace |
| PyText.ParseIntRejectsBlank | brother_ql_web/__init__.py:90 | `int()` of an empty or all-whitespace parameter is a `ValueError` |
| LabelContext.StrParam | brother_ql_web/__init__.py:89-98 | `d.get(key, default)`: the parameter's value when the key is present, the default when it is absent |
| LabelContext.IntParam | brother_ql_web/__init__.py:90-102 | `int(d.get(key, default))`: an absent key gives the default; a present value is accepted exactly when it is an integer literal (whitespace, optional sign, at least one digit, whitespace), and then gives that literal's value; so a blank value is a `ValueError` and a value written as `str(n)` gives `n` |
| LabelContext.SplitFontFamily | brother_ql_web/__init__.py:86-87 | the family has no whitespace at either end, and the style holds no `(` and does not end in `)` |
| LabelContext.SplitFontFamilyFamily | brother_ql_web/__init__.py:86 | the family is the stripped text before the last `(`, and empty when there is no `(` |
| LabelContext.SplitFontFamilyStyle | brother_ql_web/__init__.py:87 | the style is the partition's tail, the text after the last `(` or the whole string without one, up to a final run of `)`; it holds no `(` and does not end in `)` |
| LabelContext.SplitFontFamilyRoundTrip | brother_ql_web/__init__.py:86-87 | `"Family (Style)"` splits back into that family and style when the family has no whitespace at its ends and the style has no `(` and no trailing `)` |
| LabelContext.MarginPixels | brother_ql_web/__init__.py:99-107 | the pixel margin is `font_size * percent / 100` truncated toward zero: 100 times it lies within 100 of the product, on the product's side of zero |
| LabelContext.DefaultMarginPixels | brother_ql_web/__init__.py:99-102 | at the default font size the default margins are 24, 45, 35 and 35 pixels |
| LabelContext.FillColor | brother_ql_web/__init__.py:109 | the ink is always red `(255,0,0)` or black `(0,0,0)` |
| LabelContext.FillColorIsRedIff | brother_ql_web/__init__.py:109 | the ink is red exactly when `red` occurs in the label size, and black exactly when it does not |
| LabelContext.FillColorExamples | brother_ql_web/__init__.py:109 | `62red` prints red and `62` prints black |
| LabelContext.GetFontPath | brother_ql_web/__init__.py:111-119 | lookup succeeds exactly when the requested family and style (the default when either is `None`) are in the font table, and yields that file; otherwise the font `LookupError` |
| LabelContext.LabelDimensions | brother_ql_web/__init__.py:123-128 | a known label size yields its printable dots; an unknown one the `Unknown label_size` `LookupError` |
| LabelContext.OrientDimensions | brother_ql_web/__init__.py:130-135 | the two sides are the stock's printable dots, landscape (width at least height) unless rotated, portrait when rotated |
| LabelContext.GetLabelContext | brother_ql_web/__init__.py:81-137 | the order of the failures: `AttributeError` without `font_family`, then `ValueError("font_size")`, then `KeyError` for an unknown label size, then `ValueError` for `margin`, `threshold`, `margin_top`, `margin_bottom`, `margin_left` and `margin_right` in that order, then the font `LookupError`; the exact success condition and every resolved field; margins of 24, 45, 35 and 35 pixels without size or margin parameters; the canvas is the stock's printable area, landscape unless rotated and portrait when rotated; `Unknown label_size` is never raised and the default font never used |
| LabelImage.NormalizedText | brother_ql_web/__init__.py:147-152 | normalising keeps the number of lines, keeps every non-empty line, turns every empty line into one space, and leaves no line empty |
| LabelImage.NormalizedTextIdempotent | brother_ql_web/__init__.py:147-152 | normalising twice is normalising once |
| LabelImage.EmptyLineIsDrawnAsSpace | brother_ql_web/__init__.py:145-152 | `"A\n\nB"` and `"A\n \nB"` are measured and drawn as the same text |
| LabelImage.NormalizeText | brother_ql_web/__init__.py:147-152 | the line-by-line loop yields the normalised text: as many lines as the input, each empty line replaced by `" "` and the others unchanged |
| LabelImage.CanvasSize | brother_ql_web/__init__.py:156-162 | a die-cut canvas keeps the context's size; an endless label grows only along its feed direction, to the text height plus top and bottom margins (standard) or the text width plus left and right margins (rotated) |
| LabelImage.DrawOffset | brother_ql_web/__init__.py:165-179 | an offset exists exactly for the `standard` and `rotated` orientations, otherwise `UnboundLocalError` on `horizontal_offset`; an endless label starts its text `margin_top` down (standard) or `margin_left` in (rotated) |
| LabelImage.DieCutCanvasIgnoresText | brother_ql_web/__init__.py:156-162 | a die-cut or round die-cut canvas is the context's size for every text |
| LabelImage.EndlessStandardLayout | brother_ql_web/__init__.py:156-171 | endless and standard: width kept, height is text height plus top and bottom margins, and the text starts `margin_top` from the top and ends exactly `margin_bottom` from the bottom |
| LabelImage.EndlessRotatedLayout | brother_ql_web/__init__.py:160-178 | endless and rotated: height kept, width is text width plus left and right margins, and the text starts `margin_left` from the left and ends exactly `margin_right` from the right |
| LabelImage.HorizontalCentring | brother_ql_web/__init__.py:165-178 | except on rotated endless labels the horizontal offset is never negative; a text that fits has left and right gaps within one pixel, and a wider text is pinned to the left edge |
| LabelImage.VerticalCentring | brother_ql_web/__init__.py:165-178 | on die-cut labels and rotated endless labels the gap above minus the gap below is exactly `margin_top - margin_bottom`, less one pixel for each of the two floor halvings that drops a remainder (`(height - text_height) % 2` and `(margin_top - margin_bottom) % 2`), so never more than two |
| LabelImage.CreateLabelIm | brother_ql_web/__init__.py:140-183 | `AttributeError` without text, `UnboundLocalError` exactly for an unknown orientation; otherwise the drawn text is the normalised text, the same text is measured, the canvas is the grown or fixed size, and the offset is the one for the kind and orientation |
| PrintText.PrintRotate | brother_ql_web/__init__.py:235-238 | `auto` exactly for die-cut kinds; for endless labels 0 degrees exactly in the standard orientation and 90 otherwise |
| PrintText.PrintRed | brother_ql_web/__init__.py:241-243 | the red flag is set exactly when `red` occurs in the label size |
| PrintText.PrintRedMatchesFillColor | brother_ql_web/__init__.py:241-243 | the printer's red flag is set exactly when the preview ink is red, that is when `red` occurs in the label size |

## Left out

- PIL: loading the font (line 142), allocating canvases (lines 143, 163), and drawing (lines 180-182) are not modelled. Measuring (line 155) is the `measure` parameter, and drawing is described by the returned `Label`. PIL's own failures, such as a canvas with a negative side, are not modelled.
- The Bottle routes and I/O glue are not modelled: `index`, `serve_static`, `labeldesigner`, `get_preview_image`, `image_to_png_bytes` and `log_to_logger`. They only decode requests and serialise images.
- `print_text` apart from its rotation and red flag is not modelled. This covers the raster encoder `create_label`, the printer backend's `write` and `dispose`, the `DEBUG` reply, and the error reply at lines 225-231. That reply reads `e.msg`, which Python's `LookupError` does not define.
- `main` is not modelled: argument parsing, configuration loading, journald logging, font-directory scanning, the random default font and `app.run`. The font table and default font it builds are parameters.
- The contents of brother_ql's `label_type_specs` catalog are not part of this model. The catalog is a parameter.
- Request parameters are a `map<string, string>`. Bottle's multi-valued form fields are not modelled.
- LabelContext.MarginPixels: uses exact integer truncation of `font_size * percent / 100`. The program multiplies by the float `percent / 100.0`, and rounding can make it one pixel smaller: `int(100 * 0.29)` is 28 where the model gives 29. The defaults 24, 45 and 35 at font size 100 agree.
- LabelContext.GetLabelContext: reads the margin percentages as integers. The program's `float()` also accepts decimals, exponents, `inf` and `nan`; such values are modelled as a `ValueError`.
- PyText.ParseInt: accepts optional whitespace, an optional sign and ASCII digits. Python's `int()` also accepts `_` digit separators and non-ASCII decimal digits.
