/**
 * The export panel: raster export onto a 660x921 logical canvas scaled by
 * the resolution tag, and the self-contained interactive HTML export.
 */
module ExportOptions {
  import opened Wrappers
  import opened JsText
  import opened CardData
  import opened Canvas2D
  import opened Css
  import CardPreview

  datatype Format = Png | Jpg | Gif | Html
  datatype Resolution = X1 | X2 | X4

  function FormatTag(f: Format): (tag: JsString)
    ensures |tag| > 0
  {
    match f
    case Png => Js("png")
    case Jpg => Js("jpg")
    case Gif => Js("gif")
    case Html => Js("html")
  }

  function ResolutionTag(r: Resolution): (tag: JsString)
    ensures |tag| == 2 && tag[1] == LowerX
  {
    match r
    case X1 => Js("1x")
    case X2 => Js("2x")
    case X4 => Js("4x")
  }

  /** The scale factor a resolution tag names. */
  function ScaleOf(r: Resolution): nat
  {
    match r
    case X1 => 1
    case X2 => 2
    case X4 => 4
  }

  /**
   * `parseInt(resolution.replace('x', ''))`: removing the `x` and parsing
   * gives the tag's scale factor, so the NaN case never arises.
   */
  function ParsedMultiplier(r: Resolution): (m: Option<nat>)
    ensures m == Some(ScaleOf(r))
  {
    var tag := ResolutionTag(r);
    assert tag == [tag[0], LowerX];
    ParseDigitTag(tag[0]);
    ParseInt(ReplaceFirst(tag, LowerX, []))
  }

  lemma ParseDigitTag(d: CodeUnit)
    requires IsAsciiDigit(d)
    ensures ParseInt(ReplaceFirst([d, LowerX], LowerX, [])) == Some(d as int - 0x30)
  {
    var tag := [d, LowerX];
    IndexOfAt(tag, LowerX, 1);
    var digits := ReplaceFirst(tag, LowerX, []);
    assert digits == tag[..1] + [] + tag[2..];
    assert digits == [d];
    assert LeadingDigits(digits) == 1 by { assert LeadingDigits(digits[1..]) == 0; }
    assert digits[..1] == digits && digits[..0] == [];
    assert DecimalValue(digits) == d as int - 0x30;
    assert ParseInt(digits) == Some(DecimalValue(digits[..1]));
  }

  const BaseWidth := 660
  const BaseHeight := 921
  const ImageX: real := 40.0
  const ImageY: real := 40.0
  const ImageWidth: real := 580.0
  /** `baseHeight * 0.6`, exactly. */
  const ImageHeight: real := 921.0 * 0.6

  /** Canvas pixel size for a resolution tag. */
  function CanvasSize(r: Resolution): (size: (int, int))
    ensures size.0 * BaseHeight == size.1 * BaseWidth
    ensures size.0 >= BaseWidth && size.1 >= BaseHeight
  {
    (BaseWidth * ScaleOf(r), BaseHeight * ScaleOf(r))
  }

  /** The sizes the resolution menu advertises. */
  lemma CanvasSizes()
    ensures CanvasSize(X1) == (660, 921)
    ensures CanvasSize(X2) == (1320, 1842)
    ensures CanvasSize(X4) == (2640, 3684)
  {
  }

  // ---------------------------------------------------------------------
  // File names

  /** `[^a-zA-Z0-9]` replaced by `_`. */
  function SanitizeUnit(c: CodeUnit): CodeUnit
  {
    if IsAsciiAlphanumeric(c) then c else Underscore
  }

  predicate IsFileNameSafe(c: CodeUnit)
  {
    IsAsciiAlphanumeric(c) || c == Underscore
  }

  /** `name.replace(/[^a-zA-Z0-9]/g, '_')`. */
  function Sanitize(name: JsString): (r: JsString)
    ensures |r| == |name|
    ensures forall j :: 0 <= j < |name| && IsAsciiAlphanumeric(name[j]) ==> r[j] == name[j]
    ensures forall j :: 0 <= j < |name| && !IsAsciiAlphanumeric(name[j]) ==> r[j] == Underscore
    ensures forall j :: 0 <= j < |r| ==> IsFileNameSafe(r[j])
  {
    if name == [] then [] else [SanitizeUnit(name[0])] + Sanitize(name[1..])
  }

  /** Sanitizing a sanitized name changes nothing. */
  lemma SanitizeIdempotent(name: JsString)
    ensures Sanitize(Sanitize(name)) == Sanitize(name)
  {
    var once := Sanitize(name);
    var twice := Sanitize(once);
    assert forall j :: 0 <= j < |once| ==> twice[j] == once[j];
  }

  /** Sanitization is the identity exactly on names already made of `[A-Za-z0-9_]`. */
  lemma SanitizeFixedPoints(name: JsString)
    ensures Sanitize(name) == name <==> forall j :: 0 <= j < |name| ==> IsFileNameSafe(name[j])
  {
    if forall j :: 0 <= j < |name| ==> IsFileNameSafe(name[j]) {
      assert forall j :: 0 <= j < |name| ==> Sanitize(name)[j] == name[j];
    }
  }

  /** `${sanitized}_${resolution}.${exportFormat}`. */
  function ImageFileName(name: JsString, r: Resolution, f: Format): (file: JsString)
    ensures |file| > |name|
    ensures file[..|name|] == Sanitize(name)
    ensures file[|name|..] == [Underscore] + ResolutionTag(r) + Js(".") + FormatTag(f)
    ensures forall j :: 0 <= j < |name| ==> IsFileNameSafe(file[j])
  {
    Sanitize(name) + [Underscore] + ResolutionTag(r) + Js(".") + FormatTag(f)
  }

  /** `${sanitized}_interactive.html`. */
  function HtmlFileName(name: JsString): (file: JsString)
    ensures |file| > |name|
    ensures file[..|name|] == Sanitize(name)
    ensures file[|name|..] == Js("_interactive.html")
  {
    Sanitize(name) + Js("_interactive.html")
  }

  /** The worked example: "A/B: C?" at 4x as PNG. */
  lemma FileNameExample()
    ensures ImageFileName(Js("A/B: C?"), X4, Png) == Js("A_B__C__4x.png")
  {
    SanitizedExampleName();
    assert Js("_") == [Underscore];
    assert "A_B__C__4x.png" == "A_B__C_" + "_" + "4x" + "." + "png";
    JsConcat("A_B__C_", "_");
    JsConcat("A_B__C_" + "_", "4x");
    JsConcat("A_B__C_" + "_" + "4x", ".");
    JsConcat("A_B__C_" + "_" + "4x" + ".", "png");
  }

  lemma SanitizedExampleName()
    ensures Sanitize(Js("A/B: C?")) == Js("A_B__C_")
  {
    var name := Js("A/B: C?");
    assert name == [0x41, 0x2F, 0x42, 0x3A, 0x20, 0x43, 0x3F];
    var s := Sanitize(name);
    assert s == [0x41, 0x5F, 0x42, 0x5F, 0x5F, 0x43, 0x5F] by {
      assert s[0] == 0x41 && s[1] == 0x5F && s[2] == 0x42 && s[3] == 0x5F;
      assert s[4] == 0x5F && s[5] == 0x43 && s[6] == 0x5F;
    }
    assert Js("A_B__C_") == [0x41, 0x5F, 0x42, 0x5F, 0x5F, 0x43, 0x5F];
  }

  // ---------------------------------------------------------------------
  // Description chunking: `description.match(/.{1,40}/g) || [description]`

  const LineWidth := 40

  /** The number of leading non-terminator units of `s`, at most `limit`. */
  function RunLength(s: JsString, limit: nat): (k: nat)
    ensures k <= limit && k <= |s|
    ensures forall j :: 0 <= j < k ==> !IsLineTerminator(s[j])
    ensures k < limit && k < |s| ==> IsLineTerminator(s[k])
  {
    if s == [] || limit == 0 || IsLineTerminator(s[0]) then 0
    else 1 + RunLength(s[1..], limit - 1)
  }

  /**
   * The matches of the global regular expression `/.{1,40}/g`: the search
   * skips each line terminator and takes, from every other position, the
   * longest run of at most 40 non-terminator units.
   */
  function DescriptionMatches(s: JsString): (chunks: seq<JsString>)
    ensures forall k :: 0 <= k < |chunks| ==> 1 <= |chunks[k]| <= LineWidth && NoLineTerminators(chunks[k])
    decreases |s|
  {
    if s == [] then []
    else if IsLineTerminator(s[0]) then DescriptionMatches(s[1..])
    else
      var k := RunLength(s, LineWidth);
      [s[..k]] + DescriptionMatches(s[k..])
  }

  /** The description lines: the matches, or the whole description when there are none (`null`). */
  function DescriptionLines(description: JsString): (lines: seq<JsString>)
    ensures |lines| >= 1
    ensures DescriptionMatches(description) == [] ==> lines == [description]
    ensures DescriptionMatches(description) != [] ==> lines == DescriptionMatches(description)
    ensures DescriptionMatches(description) != [] ==> forall k :: 0 <= k < |lines| ==> 1 <= |lines[k]| <= LineWidth
  {
    var m := DescriptionMatches(description);
    if m == [] then [description] else m
  }

  function Concat(chunks: seq<JsString>): JsString
  {
    if chunks == [] then [] else chunks[0] + Concat(chunks[1..])
  }

  /** `s` with its line terminators removed. */
  function StripTerminators(s: JsString): JsString
  {
    if s == [] then []
    else (if IsLineTerminator(s[0]) then [] else [s[0]]) + StripTerminators(s[1..])
  }

  lemma {:induction false} StripSplit(s: JsString, k: nat)
    requires k <= |s|
    requires forall j :: 0 <= j < k ==> !IsLineTerminator(s[j])
    ensures StripTerminators(s) == s[..k] + StripTerminators(s[k..])
  {
    if k > 0 {
      var t := s[1..];
      StripSplit(t, k - 1);
      assert t[k - 1..] == s[k..];
      assert s[..k] == [s[0]] + t[..k - 1];
    }
  }

  /** The matches, joined, are the description without its line terminators. */
  lemma {:induction false} MatchesJoin(s: JsString)
    ensures Concat(DescriptionMatches(s)) == StripTerminators(s)
    decreases |s|
  {
    if s == [] {
    } else if IsLineTerminator(s[0]) {
      MatchesJoin(s[1..]);
    } else {
      var k := RunLength(s, LineWidth);
      var rest := DescriptionMatches(s[k..]);
      assert DescriptionMatches(s) == [s[..k]] + rest;
      assert ([s[..k]] + rest)[1..] == rest;
      MatchesJoin(s[k..]);
      StripSplit(s, k);
    }
  }

  /** There are no matches exactly when every unit is a line terminator (the empty string included). */
  lemma {:induction false} NoMatchesIffBlank(s: JsString)
    ensures DescriptionMatches(s) == [] <==> forall j :: 0 <= j < |s| ==> IsLineTerminator(s[j])
    decreases |s|
  {
    if s != [] && IsLineTerminator(s[0]) {
      NoMatchesIffBlank(s[1..]);
      assert forall j :: 1 <= j < |s| ==> s[j] == s[1..][j - 1];
    }
  }

  /** A run stops at a line terminator: nothing after one can lengthen it. */
  lemma {:induction false} RunLengthStops(a: JsString, rest: JsString, limit: nat)
    requires rest != [] && IsLineTerminator(rest[0])
    ensures RunLength(a + rest, limit) == RunLength(a, limit)
    decreases |a|
  {
    if a != [] && limit > 0 && !IsLineTerminator(a[0]) {
      assert (a + rest)[1..] == a[1..] + rest;
      RunLengthStops(a[1..], rest, limit - 1);
    }
  }

  /**
   * A line terminator ends a line: no match spans it, and the matches on
   * either side of it are found independently of each other.
   */
  lemma {:induction false} SplitAtTerminator(a: JsString, t: CodeUnit, b: JsString)
    requires IsLineTerminator(t)
    ensures DescriptionMatches(a + [t] + b) == DescriptionMatches(a) + DescriptionMatches(b)
    decreases |a|
  {
    var s := a + [t] + b;
    assert s == a + ([t] + b);
    if a == [] {
      assert s[1..] == b;
    } else if IsLineTerminator(a[0]) {
      assert s[1..] == a[1..] + [t] + b;
      SplitAtTerminator(a[1..], t, b);
    } else {
      var k := RunLength(a, LineWidth);
      RunLengthStops(a, [t] + b, LineWidth);
      assert s[..k] == a[..k];
      assert s[k..] == a[k..] + [t] + b;
      SplitAtTerminator(a[k..], t, b);
    }
  }

  /** An empty or terminator-only description is drawn as one line: itself. */
  lemma BlankDescriptionIsOneLine(s: JsString)
    requires forall j :: 0 <= j < |s| ==> IsLineTerminator(s[j])
    ensures DescriptionLines(s) == [s]
  {
    NoMatchesIffBlank(s);
  }

  /**
   * A description without line terminators is cut into ceil(n/40) lines,
   * all but the last exactly 40 units long, that join back to it.
   */
  lemma {:induction false} PlainDescriptionChunks(s: JsString)
    requires NoLineTerminators(s)
    ensures var m := DescriptionMatches(s);
      && |m| == (|s| + LineWidth - 1) / LineWidth
      && (forall k :: 0 <= k < |m| - 1 ==> |m[k]| == LineWidth)
      && Concat(m) == s
    decreases |s|
  {
    MatchesJoin(s);
    StripSplit(s, |s|);
    assert s[..|s|] == s && s[|s|..] == [];
    if s != [] {
      var k := RunLength(s, LineWidth);
      assert k == if |s| < LineWidth then |s| else LineWidth;
      var rest := s[k..];
      assert NoLineTerminators(rest) by {
        assert forall j :: 0 <= j < |rest| ==> rest[j] == s[k + j];
      }
      PlainDescriptionChunks(rest);
      var m := DescriptionMatches(s);
      assert m == [s[..k]] + DescriptionMatches(rest);
      assert forall i :: 1 <= i < |m| ==> m[i] == DescriptionMatches(rest)[i - 1];
    }
  }

  /** The worked example: 85 units without terminators give lines of 40, 40 and 5. */
  lemma EightyFiveUnits(s: JsString)
    requires |s| == 85 && NoLineTerminators(s)
    ensures var lines := DescriptionLines(s); |lines| == 3 && |lines[0]| == 40 && |lines[1]| == 40 && |lines[2]| == 5
  {
    PlainDescriptionChunks(s);
    var m := DescriptionMatches(s);
    var m1 := m[1..];
    var m2 := m1[1..];
    assert m2[1..] == [];
    assert |Concat(m2)| == |m[2]|;
    assert |Concat(m1)| == |m[1]| + |Concat(m2)|;
    assert |Concat(m)| == |m[0]| + |Concat(m1)|;
  }

  // ---------------------------------------------------------------------
  // Layout and the holographic overlay

  /** Baseline of the name: 40 below the image. */
  const NameY: real := ImageY + ImageHeight + 40.0

  /** Baseline of description line `i`. */
  function DescriptionLineY(i: nat): (y: real)
    ensures y - NameY == 30.0 + 20.0 * i as real
    ensures y > NameY
  {
    ImageY + ImageHeight + 70.0 + i as real * 20.0
  }

  /** Lines are stacked top to bottom, 20 units apart. */
  lemma DescriptionLinesSpaced(i: nat, j: nat)
    requires i < j
    ensures DescriptionLineY(i) < DescriptionLineY(j)
    ensures DescriptionLineY(j) - DescriptionLineY(i) == 20.0 * (j - i) as real
  {
  }

  /** The footer baseline, 40 units above the bottom edge. */
  const FooterY: real := BaseHeight as real - 40.0

  /** The overlay gradient's alpha for an effect intensity. */
  function OverlayAlpha(intensity: real): (a: real)
    ensures 0.0 < intensity <= 100.0 ==> 0.0 < a <= 0.25
    ensures intensity == 100.0 ==> a == 0.25
  {
    intensity / 400.0
  }

  /** The overlay's alpha is a quarter of the preview's shine opacity at every intensity. */
  lemma OverlayIsQuarterShine(intensity: real)
    ensures OverlayAlpha(intensity) * 4.0 == CardPreview.ShineOpacity(intensity)
  {
  }

  /** The overlay gradient, present only for a positive intensity. */
  function HoloGradient(intensity: real): (g: Option<Paint>)
    ensures g.Some? <==> intensity > 0.0
    ensures g.Some? ==> g.value.LinearGradient? && |g.value.stops| == 4
    ensures g.Some? ==> forall k :: 0 <= k < |g.value.stops| ==>
              g.value.stops[k].color.Rgba? && g.value.stops[k].color.alpha == OverlayAlpha(intensity)
  {
    if intensity > 0.0 then
      var a := OverlayAlpha(intensity);
      Some(LinearGradient(0.0, 0.0, BaseWidth as real, BaseHeight as real, [
        ColorStop(0.0, Rgba(255, 0, 255, a)),
        ColorStop(0.3, Rgba(0, 255, 255, a)),
        ColorStop(0.6, Rgba(255, 255, 0, a)),
        ColorStop(1.0, Rgba(255, 0, 255, a))]))
    else None
  }

  // ---------------------------------------------------------------------
  // What a complete raster export draws

  function ScaledState(m: nat): DrawState
  {
    InitialState.(scale := m as real)
  }

  const CardOutline := RoundRect(0.0, 0.0, BaseWidth as real, BaseHeight as real, 12.0)
  const ImageFrame := RoundRect(ImageX, ImageY, ImageWidth, ImageHeight, 8.0)

  function BackgroundPaint(): Paint
  {
    LinearGradient(0.0, 0.0, BaseWidth as real, BaseHeight as real, [
      ColorStop(0.0, Hex("#1a1a2e")), ColorStop(0.5, Hex("#16213e")), ColorStop(1.0, Hex("#0f172a"))])
  }

  function BackgroundOp(m: nat): DrawOp
  {
    DrawOp(FillPath([CardOutline]), ScaledState(m).(fillStyle := BackgroundPaint()))
  }

  /**
   * The image is drawn clipped by the current path, which at that point
   * still holds the card outline as well as the image frame.
   */
  function ImageOp(m: nat): DrawOp
  {
    DrawOp(DrawImage(ImageX, ImageY, ImageWidth, ImageHeight),
           ScaledState(m).(fillStyle := BackgroundPaint(), clip := [[CardOutline, ImageFrame]]))
  }

  function OverlayOps(intensity: real, m: nat): seq<DrawOp>
  {
    match HoloGradient(intensity)
    case Some(g) => [DrawOp(FillRect(0.0, 0.0, BaseWidth as real, BaseHeight as real),
                            ScaledState(m).(fillStyle := g, composite := Screen))]
    case None => []
  }

  function TextState(m: nat, font: string, align: Align): DrawState
  {
    ScaledState(m).(fillStyle := Solid(Named("white")), font := font, align := align)
  }

  /** The horizontal centre the centred texts are anchored at. */
  const CenterX: real := BaseWidth as real / 2.0

  function DescriptionOps(lines: seq<JsString>, m: nat): seq<DrawOp>
  {
    seq(|lines|, k requires 0 <= k < |lines| =>
      DrawOp(FillText(lines[k], CenterX, DescriptionLineY(k)), TextState(m, "14px Arial", Center)))
  }

  function FooterOps(card: Card, m: nat): seq<DrawOp>
  {
    [DrawOp(FillText(Js("#") + card.cardNumber, 40.0, FooterY), TextState(m, "12px Arial", Left)),
     DrawOp(FillText(card.setInfo, BaseWidth as real - 40.0, FooterY), TextState(m, "12px Arial", Right))]
  }

  /** The white texts: the name, each description line, the card number and the set. */
  function TextOps(card: Card, m: nat): seq<DrawOp>
  {
    [DrawOp(FillText(card.name, CenterX, NameY), TextState(m, "bold 24px Arial", Center))]
    + DescriptionOps(DescriptionLines(card.description), m)
    + FooterOps(card, m)
  }

  /** Everything a successful raster export draws, in order. */
  function RenderedOps(card: Card, m: nat): (ops: seq<DrawOp>)
    ensures |ops| >= 5
    ensures ops[0].drawing == FillPath([CardOutline]) && ops[1].drawing.DrawImage?
    ensures ops[|ops| - 2..] == FooterOps(card, m)
  {
    [BackgroundOp(m), ImageOp(m)] + OverlayOps(card.effectIntensity, m) + TextOps(card, m)
  }

  /** The number of draw operations: five fixed ones, one per line, and the overlay when present. */
  lemma RenderedOpsCount(card: Card, m: nat)
    ensures |RenderedOps(card, m)| == 5 + |DescriptionLines(card.description)| + (if card.effectIntensity > 0.0 then 1 else 0)
  {
  }

  /**
   * Only the overlay is drawn with `screen`, and only for a positive
   * intensity: compositing is `source-over` for every other operation.
   * Only the image is clipped, and its clip is the whole current path,
   * card outline included. Every operation is drawn in logical coordinates
   * scaled by `m`.
   */
  lemma RenderedOpsCompositing(card: Card, m: nat)
    ensures var ops := RenderedOps(card, m);
      forall k :: 0 <= k < |ops| ==>
        && ops[k].state.scale == m as real
        && (ops[k].state.composite == Screen <==> card.effectIntensity > 0.0 && k == 2)
        && (ops[k].state.clip != [] <==> k == 1)
    ensures RenderedOps(card, m)[1].state.clip == [[CardOutline, ImageFrame]]
  {
    var ops := RenderedOps(card, m);
    var lines := DescriptionLines(card.description);
    var o := if card.effectIntensity > 0.0 then 1 else 0;
    assert |OverlayOps(card.effectIntensity, m)| == o;
    forall k | 0 <= k < |ops|
      ensures ops[k].state.scale == m as real
      ensures ops[k].state.composite == Screen <==> card.effectIntensity > 0.0 && k == 2
      ensures ops[k].state.clip != [] <==> k == 1
    {
      var pre := [BackgroundOp(m), ImageOp(m)] + OverlayOps(card.effectIntensity, m);
      var texts := TextOps(card, m);
      var descs := DescriptionOps(lines, m);
      assert ops == pre + texts && |pre| == 2 + o;
      if k < |pre| {
        assert ops[k] == pre[k];
      } else {
        var j := k - |pre|;
        assert ops[k] == texts[j];
        if 1 <= j <= |descs| {
          assert texts[j] == descs[j - 1];
        } else if j > |descs| {
          assert texts[j] == FooterOps(card, m)[j - 1 - |descs|];
        }
      }
    }
  }

  /** Description line `k` is drawn centred at its baseline. */
  lemma RenderedDescriptionLine(card: Card, m: nat, k: nat)
    requires k < |DescriptionLines(card.description)|
    ensures var o := if card.effectIntensity > 0.0 then 1 else 0;
      RenderedOps(card, m)[3 + o + k].drawing
        == FillText(DescriptionLines(card.description)[k], CenterX, DescriptionLineY(k))
  {
    var o := if card.effectIntensity > 0.0 then 1 else 0;
    assert |OverlayOps(card.effectIntensity, m)| == o;
    var lines := DescriptionLines(card.description);
    assert RenderedOps(card, m)[3 + o + k] == DescriptionOps(lines, m)[k];
  }

  // ---------------------------------------------------------------------
  // The export handler

  datatype Failure = NoContext | ImageLoadFailed

  datatype ExportOutcome =
    | NoImage
    | Failed(reason: Failure)
    | BlobRequested(mimeType: JsString, quality: real, fileName: JsString)

  /** The `toBlob` callback: a download happens only when a blob is delivered. */
  function BlobDownload(outcome: ExportOutcome, blobDelivered: bool): (download: Option<JsString>)
    ensures download.Some? <==> outcome.BlobRequested? && blobDelivered
    ensures download.Some? ==> download.value == outcome.fileName
  {
    if outcome.BlobRequested? && blobDelivered then Some(outcome.fileName) else None
  }

  /** The image-download button. */
  function ImageExportEnabled(isExporting: bool, image: Option<JsString>): (enabled: bool)
    ensures enabled ==> !isExporting && image.Some? && image.value != []
    ensures !isExporting && image.Some? && image.value != [] ==> enabled
  {
    !isExporting && HasImage(image)
  }

  /** The HTML-download button. */
  function HtmlExportEnabled(image: Option<JsString>): (enabled: bool)
    ensures enabled <==> image.Some? && image.value != []
  {
    HasImage(image)
  }

  class ExportPanel {
    var format: Format
    var resolution: Resolution
    var isExporting: bool
    /** Every value given to `setIsExporting`, in order. */
    var exportingHistory: seq<bool>

    constructor ()
      ensures format == Png && resolution == X2 && !isExporting && exportingHistory == []
    {
      format, resolution, isExporting, exportingHistory := Png, X2, false, [];
    }

    method ChooseFormat(f: Format)
      modifies this`format
      ensures format == f
    {
      format := f;
    }

    method ChooseResolution(r: Resolution)
      modifies this`resolution
      ensures resolution == r
    {
      resolution := r;
    }

    method SetIsExporting(b: bool)
      modifies this`isExporting, this`exportingHistory
      ensures isExporting == b && exportingHistory == old(exportingHistory) + [b]
    {
      isExporting := b;
      exportingHistory := exportingHistory + [b];
    }

    /**
     * `handleExport`. The asynchronous steps are inputs: whether the canvas
     * yields a 2D context, and whether the image loads.
     */
    method HandleExport(card: Card, contextAvailable: bool, imageLoads: bool)
      returns (outcome: ExportOutcome, canvas: Canvas?)
      modifies this`isExporting, this`exportingHistory
      ensures !HasImage(card.image) ==>
        outcome == NoImage && canvas == null
        && isExporting == old(isExporting) && exportingHistory == old(exportingHistory)
      ensures HasImage(card.image) ==>
        canvas != null && fresh(canvas) && !isExporting
        && exportingHistory == old(exportingHistory) + [true, false]
      ensures HasImage(card.image) && !contextAvailable ==>
        outcome == Failed(NoContext) && canvas != null && canvas.ops == []
      ensures HasImage(card.image) && contextAvailable ==>
        canvas != null
        && canvas.width == CanvasSize(resolution).0 && canvas.height == CanvasSize(resolution).1
      ensures HasImage(card.image) && contextAvailable && !imageLoads ==>
        outcome == Failed(ImageLoadFailed) && canvas != null && canvas.ops == [BackgroundOp(ScaleOf(resolution))]
      ensures HasImage(card.image) && contextAvailable && imageLoads ==>
        outcome == BlobRequested(Js("image/") + FormatTag(format), 0.9, ImageFileName(card.name, resolution, format))
        && canvas != null && canvas.ops == RenderedOps(card, ScaleOf(resolution))
    {
      if !HasImage(card.image) {
        return NoImage, null;
      }
      SetIsExporting(true);
      canvas := new Canvas();
      if !contextAvailable {
        outcome := Failed(NoContext);
      } else {
        var multiplier := ParsedMultiplier(resolution).value;
        DrawBackground(canvas, multiplier);
        if !imageLoads {
          outcome := Failed(ImageLoadFailed);
        } else {
          DrawCard(canvas, card, multiplier);
          outcome := BlobRequested(Js("image/") + FormatTag(format), 0.9, ImageFileName(card.name, resolution, format));
        }
      }
      SetIsExporting(false);
    }
  }

  /** Sizing and scaling the canvas, then filling the card outline. */
  method DrawBackground(canvas: Canvas, m: nat)
    modifies canvas
    ensures canvas.width == BaseWidth * m && canvas.height == BaseHeight * m
    ensures canvas.state == ScaledState(m).(fillStyle := BackgroundPaint())
    ensures canvas.path == [CardOutline] && canvas.saved == [] && canvas.ops == [BackgroundOp(m)]
  {
    canvas.SetWidth(BaseWidth * m);
    canvas.SetHeight(BaseHeight * m);
    canvas.Scale(m as real);
    assert canvas.state == ScaledState(m);
    canvas.SetFillStyle(BackgroundPaint());
    canvas.AddRoundRect(CardOutline);
    assert canvas.path == [CardOutline];
    canvas.Fill();
  }

  /** Everything `handleExport` draws after the image has loaded. */
  method DrawCard(canvas: Canvas, card: Card, m: nat)
    requires canvas.state == ScaledState(m).(fillStyle := BackgroundPaint())
    requires canvas.path == [CardOutline] && canvas.saved == [] && canvas.ops == [BackgroundOp(m)]
    modifies canvas`state, canvas`path, canvas`saved, canvas`ops
    ensures canvas.ops == RenderedOps(card, m)
  {
    DrawImageLayer(canvas, m);
    DrawOverlay(canvas, card.effectIntensity, m);
    DrawTexts(canvas, card, m);
  }

  /** The image, clipped between `save()` and `restore()`. */
  method DrawImageLayer(canvas: Canvas, m: nat)
    requires canvas.state == ScaledState(m).(fillStyle := BackgroundPaint())
    requires canvas.path == [CardOutline] && canvas.saved == [] && canvas.ops == [BackgroundOp(m)]
    modifies canvas`state, canvas`path, canvas`saved, canvas`ops
    ensures canvas.state == old(canvas.state) && canvas.saved == []
    ensures canvas.path == [CardOutline, ImageFrame]
    ensures canvas.ops == [BackgroundOp(m), ImageOp(m)]
  {
    canvas.Save();
    canvas.AddRoundRect(ImageFrame);
    assert canvas.path == [CardOutline, ImageFrame];
    canvas.Clip();
    assert canvas.state.clip == [[CardOutline, ImageFrame]];
    canvas.DrawImageAt(ImageX, ImageY, ImageWidth, ImageHeight);
    canvas.Restore();
  }

  /** The overlay, drawn with `screen` only when the intensity is positive; compositing is restored after it. */
  method DrawOverlay(canvas: Canvas, intensity: real, m: nat)
    requires canvas.state == ScaledState(m).(fillStyle := BackgroundPaint())
    modifies canvas`state, canvas`ops
    ensures canvas.ops == old(canvas.ops) + OverlayOps(intensity, m)
    ensures canvas.state == ScaledState(m).(fillStyle := canvas.state.fillStyle)
  {
    if intensity > 0.0 {
      canvas.SetFillStyle(HoloGradient(intensity).value);
      canvas.SetComposite(Screen);
      canvas.FillRectAt(0.0, 0.0, BaseWidth as real, BaseHeight as real);
      canvas.SetComposite(SourceOver);
    }
  }

  /** The name, the description lines and the footer, in white. */
  method DrawTexts(canvas: Canvas, card: Card, m: nat)
    requires canvas.state == ScaledState(m).(fillStyle := canvas.state.fillStyle)
    modifies canvas`state, canvas`ops
    ensures canvas.ops == old(canvas.ops) + TextOps(card, m)
  {
    canvas.SetFillStyle(Solid(Named("white")));
    canvas.SetFont("bold 24px Arial");
    canvas.SetTextAlign(Center);
    canvas.FillTextAt(card.name, CenterX, ImageY + ImageHeight + 40.0);
    var head := canvas.ops;

    canvas.SetFont("14px Arial");
    var lines := DescriptionLines(card.description);
    DrawDescription(canvas, lines, m);
    var body := canvas.ops;

    canvas.SetFont("12px Arial");
    canvas.SetTextAlign(Left);
    canvas.FillTextAt(Js("#") + card.cardNumber, 40.0, FooterY);
    canvas.SetTextAlign(Right);
    canvas.FillTextAt(card.setInfo, BaseWidth as real - 40.0, FooterY);
    assert canvas.ops == body + FooterOps(card, m);
  }

  /** `descLines.forEach`: one centred line every 20 units. */
  method DrawDescription(canvas: Canvas, lines: seq<JsString>, m: nat)
    requires canvas.state == TextState(m, "14px Arial", Center)
    modifies canvas`ops
    ensures canvas.ops == old(canvas.ops) + DescriptionOps(lines, m)
  {
    for i := 0 to |lines|
      invariant canvas.ops == old(canvas.ops) + DescriptionOps(lines[..i], m)
    {
      canvas.FillTextAt(lines[i], CenterX, ImageY + ImageHeight + 70.0 + i as real * 20.0);
      assert DescriptionOps(lines[..i + 1], m) == DescriptionOps(lines[..i], m) + [DescriptionOps(lines, m)[i]];
    }
    assert lines[..|lines|] == lines;
  }

  // ---------------------------------------------------------------------
  // The interactive HTML export

  /** The parts of the exported document that depend on the card. */
  datatype HtmlExport = HtmlExport(
    fileName: JsString,
    title: JsString,
    imageUrl: Option<JsString>,
    hoverShineOpacity: real,
    heading: JsString,
    rarityText: JsString,
    descriptionText: JsString,
    cardNumberText: JsString,
    setText: JsString)

  /** `exportAsHTML`. It has no guard of its own: its button is disabled without an image. */
  function ExportAsHtml(card: Card): (doc: HtmlExport)
    ensures doc.fileName == HtmlFileName(card.name)
    ensures doc.hoverShineOpacity == CardPreview.ShineOpacity(card.effectIntensity)
    ensures |doc.rarityText| == |RarityName(card.rarity)|
    ensures doc.imageUrl == card.image
    ensures |doc.title| > |card.name| && doc.title[..|card.name|] == card.name
    ensures doc.heading == card.name && doc.descriptionText == card.description && doc.setText == card.setInfo
    ensures |doc.cardNumberText| == |card.cardNumber| + 1 && doc.cardNumberText[0] == NumberSign
    ensures doc.cardNumberText[1..] == card.cardNumber
  {
    HtmlExport(
      HtmlFileName(card.name),
      card.name + Js(" - 홀로그래픽 카드"),
      card.image,
      card.effectIntensity / 100.0,
      card.name,
      AsciiUpper(CardPreview.RarityLabel(RarityName(card.rarity))),
      card.description,
      Js("#") + card.cardNumber,
      card.setInfo)
  }

  /** The rarity line each rarity gets in the exported document. */
  function ShownRarity(r: Rarity): JsString
  {
    match r
    case Common => Js("COMMON")
    case Rare => Js("RARE")
    case UltraRare => Js("ULTRA RARE")
    case Legendary => Js("LEGENDARY")
  }

  /** The hyphen of "ultra-rare" becomes a space, then every letter is upper-cased. */
  lemma HtmlRarityTexts(card: Card)
    ensures ExportAsHtml(card).rarityText == ShownRarity(card.rarity)
  {
    UpperRarity(card.rarity);
  }

  lemma UpperRarity(r: Rarity)
    ensures AsciiUpper(CardPreview.RarityLabel(RarityName(r))) == ShownRarity(r)
  {
    CardPreview.RarityLabels(r);
    UpperRarityNames();
  }

  lemma UpperRarityNames()
    ensures AsciiUpper(Js("common")) == Js("COMMON")
    ensures AsciiUpper(Js("rare")) == Js("RARE")
    ensures AsciiUpper(Js("ultra rare")) == Js("ULTRA RARE")
    ensures AsciiUpper(Js("legendary")) == Js("LEGENDARY")
  {
    UpperLiteral("common", "COMMON");
    UpperLiteral("rare", "RARE");
    UpperLiteral("ultra rare", "ULTRA RARE");
    UpperLiteral("legendary", "LEGENDARY");
  }

  lemma UpperLiteral(s: string, t: string)
    requires |s| == |t|
    requires forall j :: 0 <= j < |s| ==> InBasicPlane(s[j]) && InBasicPlane(t[j])
    requires forall j :: 0 <= j < |s| ==> t[j] as int == if 'a' <= s[j] <= 'z' then s[j] as int - 0x20 else s[j] as int
    ensures AsciiUpper(Js(s)) == Js(t)
  {
    var up := AsciiUpper(Js(s));
    forall j | 0 <= j < |s| ensures up[j] == Js(t)[j] {
      assert Js(s)[j] as int == s[j] as int;
    }
  }

  /** The document's `mousemove` script: writes only the two rotation properties. */
  function ScriptMouseMoveProps(props: map<string, CssValue>, e: CardPreview.MouseEvent, box: CardPreview.Rect)
    : (next: map<string, CssValue>)
    requires box.width != 0.0 && box.height != 0.0
    ensures next.Keys == props.Keys + {CardPreview.RotateXVar, CardPreview.RotateYVar}
    ensures forall k :: k in props && k != CardPreview.RotateXVar && k != CardPreview.RotateYVar ==> next[k] == props[k]
    ensures next[CardPreview.RotateXVar] == Deg(CardPreview.RotateX(CardPreview.PointerPercentY(e, box)))
    ensures next[CardPreview.RotateYVar] == Deg(CardPreview.RotateY(CardPreview.PointerPercentX(e, box)))
  {
    var x := CardPreview.PointerPercentX(e, box);
    var y := CardPreview.PointerPercentY(e, box);
    props[CardPreview.RotateXVar := Deg(CardPreview.RotateX(y))][CardPreview.RotateYVar := Deg(CardPreview.RotateY(x))]
  }

  /** The exported document tilts exactly as the live preview does, without moving the highlight. */
  lemma ScriptTiltMatchesPreview(props: map<string, CssValue>, e: CardPreview.MouseEvent, box: CardPreview.Rect)
    requires box.width != 0.0 && box.height != 0.0
    ensures var script := ScriptMouseMoveProps(props, e, box);
      var preview := CardPreview.MouseMoveProps(props, e, box);
      && script[CardPreview.RotateXVar] == preview[CardPreview.RotateXVar]
      && script[CardPreview.RotateYVar] == preview[CardPreview.RotateYVar]
      && (forall k :: k == CardPreview.PointerXVar || k == CardPreview.PointerYVar ==>
            (k in script <==> k in props) && (k in props ==> script[k] == props[k]))
  {
  }

  /** The document's `mousemove` listener. */
  method ScriptMouseMove(card: StyleDeclaration, e: CardPreview.MouseEvent, box: CardPreview.Rect)
    requires box.width != 0.0 && box.height != 0.0
    modifies card
    ensures card.props == ScriptMouseMoveProps(old(card.props), e, box)
  {
    var x := ((e.clientX - box.left) / box.width) * 100.0;
    var y := ((e.clientY - box.top) / box.height) * 100.0;
    card.SetProperty(CardPreview.RotateXVar, Deg((y - 50.0) * 0.35));
    card.SetProperty(CardPreview.RotateYVar, Deg((x - 50.0) * -0.35));
  }

  /** The document's `mouseleave` listener: the same reset as the preview's. */
  method ScriptMouseLeave(card: StyleDeclaration)
    modifies card
    ensures card.props == CardPreview.MouseLeaveProps(old(card.props))
  {
    card.SetProperty(CardPreview.RotateXVar, Deg(0.0));
    card.SetProperty(CardPreview.RotateYVar, Deg(0.0));
  }
}
