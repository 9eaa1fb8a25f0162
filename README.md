# Holographic card generator — a verified model of its logic

The application is a single-page React tool. The user uploads an image, edits a card record (name, description, rarity, card number, set information, template, effect intensity, colour palette, glitter density, scan lines), watches a live 3D-tilting preview and exports the card. The export is either a raster image drawn onto a 2D canvas or a self-contained interactive HTML page.

This project models that logic in Dafny and proves properties of the model. It has eight modules.

- `Wrappers` (`wrappers.dfy`) holds `Option`.
- `JsText` (`js_text.dfy`) is the slice of JavaScript string semantics the tool relies on.
  - Strings are sequences of UTF-16 code units.
  - It covers the first-occurrence `replace` with a one-unit pattern, `parseInt` on a digit prefix, ASCII `toUpperCase`, and the ECMAScript line terminators. Those are the units the regular-expression `.` does not match.
- `CardData` (`card_data.dfy`) holds the card record, its default value and the spread-merge `{...prev, ...updates}`. A field name type lets the merge be stated field by field.
- `Css` (`css.dfy`) is an element's inline style seen as a store of custom properties, written by `setProperty`.
- `CardPreview` (`card_preview.dfy`) covers the live preview:
  - the pointer-to-tilt transform and the mouse handlers that write the four CSS variables;
  - the total rarity lookups;
  - the rarity label;
  - the intensity-derived filter and opacity;
  - the glitter particles, with `Math.random()` results as inputs.
- `Canvas2D` (`canvas.dfy`) is the part of a canvas element and its 2D context that the export uses.
  - A canvas is a class with a size, a drawing state, a current path and a save stack.
  - It keeps the list of drawing operations, each recorded with the state it was drawn under.
  - No pixels are computed.
- `ExportOptions` (`export_options.dfy`) covers the export panel:
  - format and resolution tags, and canvas-size arithmetic from the parsed tag;
  - name sanitisation and file names;
  - description chunking by `/.{1,40}/g`, with its fallback;
  - text layout and the holographic overlay;
  - `handleExport`, as a method on the panel class that draws onto a fresh `Canvas`;
  - the download buttons' enabling rules;
  - the parts of the HTML export that depend on the card, including its tilt script.
- `ImageUploader` (`image_uploader.dfy`) covers the uploader:
  - the file guards, in their order;
  - the first-file choice for drops and the file picker;
  - the drag-highlight flag;
  - the reader callback and clear-image;
  - how an upload or a clear reaches the record and the export buttons.

The code that changes state step by step is written as classes with `modifies` clauses. Two of them are proved against a pure specification function:

- the mouse handlers, against `MouseMoveProps` and `MouseLeaveProps`;
- `handleExport` with its `forEach` over the description lines, against `RenderedOps`.

The uploader's handlers state their new state directly: the file handlers through the guard function `Validate` and the first-file choice `SelectedFile`, and the drag handlers and clear-image by the values they set.

The pure parts are functions and lemmas.

JavaScript numbers are exact reals. A file's size in bytes and the canvas size are integers. The image load, the availability of a 2D context and the delivery of a blob are inputs.

As written in the source, the image's clip path still holds the card outline. No new path is begun between the background `roundRect` and the image frame's `roundRect`. The model keeps this: the image is drawn under the clip `[[CardOutline, ImageFrame]]` (see `ExportOptions.RenderedOpsCompositing`).

## Model

| member | source | states |
|---|---|---|
| JsText.IndexOf | src/components/ExportOptions.tsx:39 | The result is -1 exactly when the unit does not occur; otherwise it is a position holding the unit, with no earlier occurrence |
| JsText.IndexOfAt | src/components/ExportOptions.tsx:39 | Any position that holds the unit, with none before it, is the one `indexOf` returns |
| JsText.ReplaceFirst | src/components/ExportOptions.tsx:39 | With no occurrence the string is unchanged; otherwise only the first occurrence is replaced, and the length changes by the replacement's length minus one |
| JsText.LeadingDigits | src/components/ExportOptions.tsx:39 | Counts the longest decimal-digit prefix: every counted unit is a digit, and the next one is not |
| JsText.ParseInt | src/components/ExportOptions.tsx:39 | The result is NaN exactly when the string is empty or does not start with a digit |
| JsText.AsciiUpper | src/components/ExportOptions.tsx:211 | Keeps the length; maps each ASCII lower-case letter to its upper-case form and keeps every other unit |
| CardData.RarityName | src/pages/Index.tsx:13 | Each rarity is written as a non-empty string literal |
| CardData.SameFields | src/pages/Index.tsx:9-21 | Two records that agree on all eleven fields are equal |
| CardData.HasImage | src/components/ExportOptions.tsx:20 | JavaScript truthiness of the image, also tested at lines 301 and 310: `null` and `""` are false, a non-empty string is true |
| CardData.DefaultCard | src/pages/Index.tsx:24-36 | The initial record has image `null`, rarity ultra-rare, template and palette rainbow, intensity 75, glitter 50, scan lines on, number "001" and set "Holographic Series" |
| CardData.UpdateCardData | src/pages/Index.tsx:38-40 | Every field present in the update takes its new value; every absent field keeps its old value |
| CardData.MergeUpdatesGiven | src/pages/Index.tsx:39 | In a merged partial record, the later record's present fields win and the earlier one supplies the rest |
| CardData.ImageUpdate | src/pages/Index.tsx:67 | The uploader's update `{ image }` has exactly the image field present, holding the reported value |
| CardData.EmptyUpdateIsIdentity | src/pages/Index.tsx:39 | Merging `{}` gives back the same record |
| CardData.UpdateIdempotent | src/pages/Index.tsx:39 | Applying the same update twice equals applying it once |
| CardData.UpdatesCompose | src/pages/Index.tsx:39 | Two successive updates equal one merged update in which the later values win |
| Css.StyleDeclaration.SetProperty | src/components/CardPreview.tsx:27-30 | Sets one custom property and keeps all others |
| Canvas2D.Canvas.constructor | src/components/ExportOptions.tsx:29-30 | A new canvas has the default 300×150 size, the initial drawing state, an empty path, an empty save stack and nothing drawn |
| Canvas2D.Canvas.SetWidth | src/components/ExportOptions.tsx:41 | Sizing the canvas sets its width and resets the context state, the path, the save stack and the drawing |
| Canvas2D.Canvas.SetHeight | src/components/ExportOptions.tsx:42 | Sizing the canvas sets its height and resets the context state, the path, the save stack and the drawing |
| Canvas2D.Canvas.Scale | src/components/ExportOptions.tsx:45 | Multiplies the transform's scale and changes nothing else in the state |
| Canvas2D.Canvas.SetFillStyle | src/components/ExportOptions.tsx:53 | Assigning `fillStyle` (here and at lines 87 and 94) changes only the fill paint of the state |
| Canvas2D.Canvas.SetComposite | src/components/ExportOptions.tsx:88-90 | Assigning `globalCompositeOperation` changes only the compositing mode of the state |
| Canvas2D.Canvas.SetFont | src/components/ExportOptions.tsx:95 | Assigning `font` (here and at lines 99 and 106) changes only the font of the state |
| Canvas2D.Canvas.SetTextAlign | src/components/ExportOptions.tsx:96 | Assigning `textAlign` (here and at lines 107 and 110) changes only the alignment of the state |
| Canvas2D.Canvas.AddRoundRect | src/components/ExportOptions.tsx:54 | Appends a sub-path; the current path is never cleared |
| Canvas2D.Canvas.Fill | src/components/ExportOptions.tsx:55 | Records a fill of the whole current path under the current state |
| Canvas2D.Canvas.Clip | src/components/ExportOptions.tsx:75 | Adds the whole current path to the clip |
| Canvas2D.Canvas.Save | src/components/ExportOptions.tsx:73 | Pushes the current state |
| Canvas2D.Canvas.Restore | src/components/ExportOptions.tsx:77 | Pops and reinstates the last saved state, clip included; does nothing with an empty stack |
| Canvas2D.Canvas.DrawImageAt | src/components/ExportOptions.tsx:76 | Records the image drawn at the given rectangle under the current state |
| Canvas2D.Canvas.FillRectAt | src/components/ExportOptions.tsx:89 | Records the rectangle fill under the current state |
| Canvas2D.Canvas.FillTextAt | src/components/ExportOptions.tsx:97 | Records the text drawn at the given point under the current state |
| CardPreview.PointerPercentX | src/components/CardPreview.tsx:19 | The pointer's x as a percentage of the box: 0 at the left edge, 100 at the right edge; times the width, it is 100 times the offset from the left edge |
| CardPreview.PointerPercentY | src/components/CardPreview.tsx:20 | The pointer's y as a percentage of the box: 0 at the top edge, 100 at the bottom edge; times the height, it is 100 times the offset from the top edge |
| CardPreview.RotateX | src/components/CardPreview.tsx:23 | Zero exactly at the vertical centre, positive exactly below it, within ±17.5 degrees over the box |
| CardPreview.RotateY | src/components/CardPreview.tsx:24 | Zero exactly at the horizontal centre, negative exactly right of it, within ±17.5 degrees over the box |
| CardPreview.TiltSlope | src/components/CardPreview.tsx:23-24 | The tilt is linear in the pointer position: 0.35 degrees about X, and -0.35 about Y, per percentage point |
| CardPreview.TiltValues | src/components/CardPreview.tsx:19-24 | The tilt is odd about the centre; the centre gives (0, 0), the corner (0, 0) gives (-17.5, 17.5), and (100, 100) gives (17.5, -17.5) |
| CardPreview.MouseMoveProps | src/components/CardPreview.tsx:17-31 | Mouse-move writes exactly the two pointer and two rotate variables, with the computed percentages and angles, and keeps every other property |
| CardPreview.MouseLeaveProps | src/components/CardPreview.tsx:33-36 | Mouse-leave sets both rotate variables to 0deg and keeps everything else, the pointer variables included |
| CardPreview.LeaveAfterMove | src/components/CardPreview.tsx:17-36 | After a move and a leave, the card is level and the highlight stays where the pointer left |
| CardPreview.HandleMouseMove | src/components/CardPreview.tsx:17-31 | The handler's four `setProperty` calls leave the style store as `MouseMoveProps` describes |
| CardPreview.HandleMouseLeave | src/components/CardPreview.tsx:33-36 | The handler's two `setProperty` calls leave the style store as `MouseLeaveProps` describes |
| CardPreview.RarityColor | src/components/CardPreview.tsx:47-55 | Total: every string gets one of the four colour classes, and an unknown string gets gray |
| CardPreview.RaritySymbol | src/components/CardPreview.tsx:57-65 | Total: every string gets one of the four glyphs, and an unknown string gets ● |
| CardPreview.RarityLookupTable | src/components/CardPreview.tsx:47-65 | common → gray/●, rare → blue/◆, ultra-rare → purple/★, legendary → yellow/✦ |
| CardPreview.RaritySymbolsDistinct | src/components/CardPreview.tsx:57-65 | Distinct rarities get distinct glyphs |
| CardPreview.RarityLabel | src/components/CardPreview.tsx:119 | Keeps the length and every unit that is not a hyphen; the first hyphen becomes a space and later hyphens stay; a name without a hyphen is unchanged |
| CardPreview.HyphenReplaced | src/components/CardPreview.tsx:119 | Replacing the first hyphen by a space keeps the length and changes that one unit only |
| CardPreview.RarityLabels | src/components/CardPreview.tsx:119 | The label text of "ultra-rare" is "ultra rare"; every other rarity's label text is its own name |
| CardPreview.UltraRareLabel | src/components/CardPreview.tsx:119 | In the label text, the only hyphen of "ultra-rare", at position 5, becomes a space |
| CardPreview.ImageFilterFor | src/components/CardPreview.tsx:97 | At intensity 0 the filter is neutral (1, 1); over 0..100 brightness stays in [1, 1.5] and contrast in [1, 1.25]; brightness rises twice as fast as contrast |
| CardPreview.ImageFilterSlope | src/components/CardPreview.tsx:97 | Brightness rises by 1/200 and contrast by 1/400 per intensity point |
| CardPreview.ShineOpacity | src/components/CardPreview.tsx:104 | 0 at intensity 0, and within [0, 1] over 0..100 |
| CardPreview.ShineOpacitySlope | src/components/CardPreview.tsx:104 | The shine opacity rises by 1/100 per intensity point |
| CardPreview.IntensityStylesMonotone | src/components/CardPreview.tsx:97-104 | Brightness, contrast and shine opacity never decrease as the intensity grows |
| CardPreview.MakeParticle | src/components/CardPreview.tsx:164-167 | From draws in [0, 1): left and top in [0, 100)%, delay in [0, 2)s, duration in [1, 2)s |
| CardPreview.GlitterCount | src/components/CardPreview.tsx:159 | The count is floor(density / 10), so 0..10 for a density in [0, 100] |
| CardPreview.GlitterLayer | src/components/CardPreview.tsx:157-171 | The layer exists exactly when the density is positive; it holds floor(density / 10) particles, whatever the number of random draws available, and particle k is placed by draw k, within bounds |
| CardPreview.GlitterCounts | src/components/CardPreview.tsx:157-159 | Density 5 gives an empty layer, density 0 gives no layer, and 50 and 100 give 5 and 10 particles |
| ExportOptions.FormatTag | src/components/ExportOptions.tsx:15 | Each format tag is a non-empty literal |
| ExportOptions.ResolutionTag | src/components/ExportOptions.tsx:16 | Each resolution tag is a digit followed by `x` |
| ExportOptions.ParsedMultiplier | src/components/ExportOptions.tsx:39 | Removing the `x` and parsing gives the tag's scale factor 1, 2 or 4; the NaN case never arises |
| ExportOptions.CanvasSize | src/components/ExportOptions.tsx:37-42 | The canvas keeps the 660:921 aspect ratio and is never smaller than 660×921 |
| ExportOptions.CanvasSizes | src/components/ExportOptions.tsx:290-292 | 1x, 2x and 4x give 660×921, 1320×1842 and 2640×3684, as the menu promises |
| ExportOptions.Sanitize | src/components/ExportOptions.tsx:119 | Keeps the length; ASCII letters and digits stay in place, every other unit becomes `_`; every output unit is in `[A-Za-z0-9_]` |
| ExportOptions.SanitizeIdempotent | src/components/ExportOptions.tsx:119 | Sanitising twice is sanitising once |
| ExportOptions.SanitizeFixedPoints | src/components/ExportOptions.tsx:119 | Sanitising leaves a name unchanged exactly when the name is already made of `[A-Za-z0-9_]` |
| ExportOptions.ImageFileName | src/components/ExportOptions.tsx:119 | The download name is the sanitised name followed by `_`, the resolution tag, `.` and the format; its name part is file-name safe |
| ExportOptions.HtmlFileName | src/components/ExportOptions.tsx:250 | The HTML download name is the sanitised name followed by `_interactive.html` |
| ExportOptions.FileNameExample | src/components/ExportOptions.tsx:119 | "A/B: C?" exported at 4x as PNG is saved as "A_B__C__4x.png" |
| ExportOptions.SanitizedExampleName | src/components/ExportOptions.tsx:119 | "A/B: C?" sanitises to "A_B__C_": the slash, colon, space and question mark each become `_` |
| ExportOptions.RunLength | src/components/ExportOptions.tsx:100 | The longest terminator-free prefix that fits the limit |
| ExportOptions.DescriptionMatches | src/components/ExportOptions.tsx:100 | Every match has 1 to 40 units and no line terminator |
| ExportOptions.DescriptionLines | src/components/ExportOptions.tsx:100 | There is always at least one line; with no match the single line is the description itself; otherwise the lines are the matches, each of 1 to 40 units |
| ExportOptions.MatchesJoin | src/components/ExportOptions.tsx:100 | The matches, concatenated, are the description with its line terminators removed |
| ExportOptions.RunLengthStops | src/components/ExportOptions.tsx:100 | `.` stops at a line terminator: what follows one cannot lengthen a run |
| ExportOptions.SplitAtTerminator | src/components/ExportOptions.tsx:100 | A line terminator ends a line: the matches of `a + [t] + b` are the matches of `a` followed by the matches of `b`, so no match spans a terminator |
| ExportOptions.NoMatchesIffBlank | src/components/ExportOptions.tsx:100 | There is no match exactly when the description is empty or consists of line terminators only |
| ExportOptions.BlankDescriptionIsOneLine | src/components/ExportOptions.tsx:100 | An empty or terminator-only description is drawn as the single line `[description]` |
| ExportOptions.PlainDescriptionChunks | src/components/ExportOptions.tsx:100 | For a description without terminators, the matches join back to it, all but the last have exactly 40 units, and there are ceil(n / 40) of them |
| ExportOptions.EightyFiveUnits | src/components/ExportOptions.tsx:100 | 85 units without terminators give lines of 40, 40 and 5 |
| ExportOptions.DescriptionLineY | src/components/ExportOptions.tsx:101-103 | Line i sits 30 + 20·i below the name's baseline, so below the name |
| ExportOptions.DescriptionLinesSpaced | src/components/ExportOptions.tsx:101-103 | Later lines are strictly lower, by exactly 20 per line |
| ExportOptions.OverlayAlpha | src/components/ExportOptions.tsx:82-85 | For an intensity in (0, 100] the alpha is in (0, 0.25], and exactly 0.25 at 100 |
| ExportOptions.OverlayIsQuarterShine | src/components/ExportOptions.tsx:82-85 | At every intensity the overlay alpha is a quarter of the preview's shine opacity, so it is intensity / 400 |
| ExportOptions.HoloGradient | src/components/ExportOptions.tsx:80-86 | The overlay exists exactly when the intensity is positive; it has four RGBA stops that all share the alpha effectIntensity / 400 |
| ExportOptions.RenderedOps | src/components/ExportOptions.tsx:47-111 | A full export draws at least five operations: the card outline first, the image second, and the two footer texts last |
| ExportOptions.RenderedOpsCount | src/components/ExportOptions.tsx:47-111 | A full export draws five fixed operations, one per description line, and the overlay when the intensity is positive |
| ExportOptions.RenderedOpsCompositing | src/components/ExportOptions.tsx:45-91 | Every operation is drawn at scale m. Only the overlay uses `screen`, and only for a positive intensity. Only the image is clipped, by a clip that holds the card outline as well as the image frame |
| ExportOptions.RenderedDescriptionLine | src/components/ExportOptions.tsx:99-103 | Description line k is drawn centred at its own baseline, right after the name and the overlay |
| ExportOptions.BlobDownload | src/components/ExportOptions.tsx:114-127 | A download happens exactly when the export requested a blob and the browser delivered one, under the requested file name |
| ExportOptions.ImageExportEnabled | src/components/ExportOptions.tsx:301 | The image button is enabled exactly when no export runs and the image is neither `null` nor empty |
| ExportOptions.HtmlExportEnabled | src/components/ExportOptions.tsx:310 | The HTML button is enabled exactly when the image is neither `null` nor empty |
| ExportOptions.ExportPanel.constructor | src/components/ExportOptions.tsx:15-17 | The panel starts with PNG, 2x and no export running |
| ExportOptions.ExportPanel.ChooseFormat | src/components/ExportOptions.tsx:271 | Selecting a format changes only the format |
| ExportOptions.ExportPanel.ChooseResolution | src/components/ExportOptions.tsx:285 | Selecting a resolution changes only the resolution |
| ExportOptions.ExportPanel.SetIsExporting | src/components/ExportOptions.tsx:17 | Sets the flag and records the value set |
| ExportOptions.ExportPanel.HandleExport | src/components/ExportOptions.tsx:19-135 | Without an image there is no canvas and the flag is untouched. Otherwise the flag is set true, then false, whether the export succeeds or fails. With no context nothing is drawn. If the image fails to load, only the background is drawn. On success the canvas is 660m×921m, holds exactly `RenderedOps`, and a blob is requested with the `image/` MIME type, quality 0.9 and the sanitised file name |
| ExportOptions.DrawBackground | src/components/ExportOptions.tsx:41-55 | The canvas is sized 660m×921m and its context reset, then scaled by m; the card outline is filled with the background gradient, and that fill is the only drawing so far |
| ExportOptions.DrawCard | src/components/ExportOptions.tsx:67-111 | After the background, the drawing steps, the description loop included, produce exactly `RenderedOps` |
| ExportOptions.DrawImageLayer | src/components/ExportOptions.tsx:73-77 | The image is drawn under the clip of the whole current path; `restore()` brings back the state from before the clip, with an empty save stack; the path is left holding the outline and the frame |
| ExportOptions.DrawOverlay | src/components/ExportOptions.tsx:80-91 | The overlay is drawn exactly when the intensity is positive, and compositing is back to `source-over` afterwards |
| ExportOptions.DrawTexts | src/components/ExportOptions.tsx:94-111 | Draws the name, every description line and the two footer texts, in that order, as `TextOps` lists them |
| ExportOptions.DrawDescription | src/components/ExportOptions.tsx:100-103 | The `forEach` draws line i at its own baseline, in order, one operation per line |
| ExportOptions.ExportAsHtml | src/components/ExportOptions.tsx:144-250 | The document goes under the sanitised `_interactive.html` name; its title starts with the name; its hover shine opacity is the preview's; it embeds the record's image; the heading, description and set text are the record's own, unescaped; the card number follows `#`; its rarity line is as long as the rarity name |
| ExportOptions.HtmlRarityTexts | src/components/ExportOptions.tsx:211 | The rarity line is COMMON, RARE, ULTRA RARE or LEGENDARY |
| ExportOptions.UpperRarity | src/components/ExportOptions.tsx:211 | Replacing the hyphen and then upper-casing each rarity name gives its rarity line |
| ExportOptions.ScriptMouseMoveProps | src/components/ExportOptions.tsx:226-236 | The page's mouse-move writes only the two rotate variables, with the preview's angles, and keeps every other property |
| ExportOptions.ScriptTiltMatchesPreview | src/components/ExportOptions.tsx:228-235 | The exported page's rotations equal the preview's; both pointer variables keep their presence and their values |
| ExportOptions.ScriptMouseMove | src/components/ExportOptions.tsx:226-236 | The listener's `setProperty` calls leave the store as `ScriptMouseMoveProps` describes |
| ExportOptions.ScriptMouseLeave | src/components/ExportOptions.tsx:238-241 | The page's mouse-leave resets the rotation as the preview's does |
| ImageUploader.IsImageType | src/components/ImageUploader.tsx:17 | A type passes exactly when its first six units are `image/` |
| ImageUploader.Validate | src/components/ImageUploader.tsx:16-25 | A file is accepted exactly when its type starts with `image/` and it has at most 10 MiB. A non-image is refused for its type, whatever its size; an oversized image is refused for its size |
| ImageUploader.ValidationBoundaries | src/components/ImageUploader.tsx:17-25 | Exactly 10485760 bytes is accepted and one more byte is refused; an oversized non-image gets only the type error |
| ImageUploader.ImageTypeExamples | src/components/ImageUploader.tsx:17 | The prefix test needs the full `image/`: "image/gif" passes; "image", "text/plain" and "" do not |
| ImageUploader.FirstFile | src/components/ImageUploader.tsx:41-44 | A drop handles only the first file, and an empty list handles none |
| ImageUploader.SelectedFile | src/components/ImageUploader.tsx:58-61 | The picker handles only the first file; a `null` or empty list handles none |
| ImageUploader.Uploader.constructor | src/components/ImageUploader.tsx:13-14 | The uploader starts with no drag, an empty input and nothing read or reported |
| ImageUploader.Uploader.HandleFile | src/components/ImageUploader.tsx:16-35 | A file that passes both guards is handed to the reader; any other file raises exactly its `Validate` error and is not read |
| ImageUploader.Uploader.HandleDrop | src/components/ImageUploader.tsx:37-45 | A drop ends the drag and handles the first dropped file, if any |
| ImageUploader.Uploader.HandleDragOver | src/components/ImageUploader.tsx:47-50 | Drag-over sets the drag flag |
| ImageUploader.Uploader.HandleDragLeave | src/components/ImageUploader.tsx:52-55 | Drag-leave clears the drag flag |
| ImageUploader.Uploader.HandleFileSelect | src/components/ImageUploader.tsx:57-62 | The picker's change handles the first chosen file, whose name the file input then holds; a `null` or empty list does nothing |
| ImageUploader.Uploader.ReaderLoaded | src/components/ImageUploader.tsx:28-33 | The reader's result is reported only when it is neither `null` nor empty |
| ImageUploader.Uploader.ClearImage | src/components/ImageUploader.tsx:64-70 | Reports `""` as the new image and empties the file input |
| ImageUploader.ClearedImageBlocksExport | src/pages/Index.tsx:66-69 | After clear-image the record's image is `""` and every other field is unchanged; both export buttons are disabled |
| ImageUploader.UploadEnablesExport | src/pages/Index.tsx:66-69 | After an upload with a non-empty data URL both export buttons are enabled, whenever no export is running |

## Left out

- Pixels: gradients, rounded rectangles, clipping, image scaling and font rendering are not computed. The model records each drawing operation, its coordinates and the state it was drawn under.
- Browser and asynchronous plumbing is not modelled. This covers the `Image` load, `getContext`, `toBlob` encoding, object URLs, anchor-click downloads, `Blob`, `FileReader`, `toast` and `console.error`.
  - The three outcomes that matter become inputs: a context is available, the image loads, a blob is delivered.
  - The reader's result is a parameter of `ReaderLoaded`, and errors are recorded as `Rejection` values instead of toast texts.
- How `toBlob` treats `image/jpg` and `image/gif` is up to the browser. The model records the requested MIME type and quality only.
- ExportOptions.ExportPanel.HandleExport: the order of React state updates is not modelled. In the browser, `isExporting` is reset in `finally` before the `toBlob` callback runs; the model records the flag's values in order and handles the callback separately, in `BlobDownload`.
- Number-to-string formatting (`${x}%`, `${deg}deg`, `rgba(…, ${alpha})`) is left to the browser. CSS values and colour stops hold the exact real numbers instead.
- IEEE-754 rounding is not modelled: 921·0.6, the tilt angles and the percentages are exact reals.
- CardPreview.PointerPercentX: requires a box of non-zero width. The source would divide by zero and write `Infinity` or `NaN`.
- CardPreview.PointerPercentY: requires a box of non-zero height, for the same reason.
- JsText.ParseInt: models `parseInt` only on what the tool gives it, a digit followed by nothing. It omits leading white space, signs and radix prefixes.
- JsText.AsciiUpper: upper-cases ASCII letters only. This covers the rarity names; full Unicode case mapping is not modelled.
- JsText.Js: maps a literal character outside the Basic Multilingual Plane to U+FFFD, not to a surrogate pair. Every literal the model uses, the Korean texts included, lies inside that plane. The only literal outside it is the 💡 (U+1F4A1) of the export tips heading at src/components/ExportOptions.tsx:319, static UI text that is not modelled.
- ExportOptions.ExportAsHtml: models the values the template embeds (file name, title, image, hover opacity, the `h3` name, rarity line, description paragraph, card number and set text) as separate fields. It does not assemble the document text: the fixed HTML and CSS and the order in which the values appear are not modelled. The record's texts are embedded without HTML escaping, as in the source.
- A `Partial<CardData>` field set explicitly to `undefined` is not modelled. `CardUpdate` has present or absent fields only.
- The slider bounds on intensity and density (0 to 100, step 5) are enforced by a UI library. They appear only as hypotheses of the bound properties, never as preconditions of the operations.
- The concrete values of `Math.random()` are not modelled. They are inputs to `GlitterLayer`, constrained to [0, 1).
- `preventDefault()` in the drag handlers, and the file-input `click()`, are not modelled: they have no effect on the modelled state.
- Registering and removing event listeners in `useEffect` is not modelled.
- ImageUploader.Uploader.ClearImage: treats the file input as always mounted; the source skips the reset when the ref is `null`.
- ImageUploader.Uploader.HandleFileSelect: the file input's value is modelled as the chosen file's bare name. Browsers show a path-like value such as `C:\fakepath\<name>`, and a cancelled picker leaves the model's value unchanged; both are browser behaviour, not code of the tool.
- Declarative JSX is mostly not modelled: class names (so the `uppercase` class that makes the page display the rarity label in capitals at src/components/CardPreview.tsx:118), static texts, the `--glitter-density` style string, and most conditional rendering. The modelled conditionals are the glitter layer's `glitterDensity > 0` (`GlitterLayer`), the overlay's `effectIntensity > 0` (`HoloGradient`, `DrawOverlay`) and the buttons' `disabled` tests (`ImageExportEnabled`, `HtmlExportEnabled`). The preview's `cardData.image &&` image layer, its `cardData.description &&` paragraph, the `showScanlines` layer and the uploader's `currentImage ?` view switch are not modelled.
- The card editor form and the page header are not part of this model.
