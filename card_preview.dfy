/**
 * The live preview: the pointer-driven tilt written into four CSS custom
 * properties, the rarity lookups, the glitter particles and the
 * intensity-derived style values.
 */
module CardPreview {
  import opened Wrappers
  import opened JsText
  import opened CardData
  import opened Css

  /** Degrees of rotation per percentage point of pointer offset. */
  const TiltFactor: real := 0.35

  const PointerXVar := "--pointer-x"
  const PointerYVar := "--pointer-y"
  const RotateXVar := "--rotate-x"
  const RotateYVar := "--rotate-y"

  /** The result of `getBoundingClientRect()`. */
  datatype Rect = Rect(left: real, top: real, width: real, height: real)

  datatype MouseEvent = MouseEvent(clientX: real, clientY: real)

  /** The pointer's horizontal position as a percentage of the box width. */
  function PointerPercentX(e: MouseEvent, box: Rect): (x: real)
    requires box.width != 0.0
    ensures e.clientX == box.left ==> x == 0.0
    ensures e.clientX == box.left + box.width ==> x == 100.0
    ensures x * box.width == (e.clientX - box.left) * 100.0
  {
    var offset := e.clientX - box.left;
    assert offset == box.width ==> offset / box.width == 1.0;
    (offset / box.width) * 100.0
  }

  /** The pointer's vertical position as a percentage of the box height. */
  function PointerPercentY(e: MouseEvent, box: Rect): (y: real)
    requires box.height != 0.0
    ensures e.clientY == box.top ==> y == 0.0
    ensures e.clientY == box.top + box.height ==> y == 100.0
    ensures y * box.height == (e.clientY - box.top) * 100.0
  {
    var offset := e.clientY - box.top;
    assert offset == box.height ==> offset / box.height == 1.0;
    (offset / box.height) * 100.0
  }

  /** Rotation about the X axis: zero at the vertical centre, positive below it. */
  function RotateX(y: real): (deg: real)
    ensures (deg == 0.0) <==> (y == 50.0)
    ensures (deg > 0.0) <==> (y > 50.0)
    ensures 0.0 <= y <= 100.0 ==> -17.5 <= deg <= 17.5
  {
    (y - 50.0) * TiltFactor
  }

  /** Rotation about the Y axis: zero at the horizontal centre, negative right of it. */
  function RotateY(x: real): (deg: real)
    ensures (deg == 0.0) <==> (x == 50.0)
    ensures (deg < 0.0) <==> (x > 50.0)
    ensures 0.0 <= x <= 100.0 ==> -17.5 <= deg <= 17.5
  {
    (x - 50.0) * -TiltFactor
  }

  /** The tilt is odd about the centre and has the documented values. */
  lemma TiltValues(d: real)
    ensures RotateX(50.0 + d) == -RotateX(50.0 - d) && RotateY(50.0 + d) == -RotateY(50.0 - d)
    ensures RotateX(50.0) == 0.0 && RotateY(50.0) == 0.0
    ensures RotateX(0.0) == -17.5 && RotateY(0.0) == 17.5
    ensures RotateX(100.0) == 17.5 && RotateY(100.0) == -17.5
  {
  }

  /** The tilt follows the pointer linearly: 0.35 degrees per percentage point. */
  lemma TiltSlope(a: real, b: real)
    ensures RotateX(a) - RotateX(b) == TiltFactor * (a - b)
    ensures RotateY(a) - RotateY(b) == -TiltFactor * (a - b)
    ensures TiltFactor == 0.35
  {
  }

  /** The properties mouse-move writes. */
  function TiltVars(): set<string>
  {
    {PointerXVar, PointerYVar, RotateXVar, RotateYVar}
  }

  /** The style store after `handleMouseMove`. */
  function MouseMoveProps(props: map<string, CssValue>, e: MouseEvent, box: Rect): (next: map<string, CssValue>)
    requires box.width != 0.0 && box.height != 0.0
    ensures next.Keys == props.Keys + TiltVars()
    ensures forall k :: k in props && k !in TiltVars() ==> next[k] == props[k]
    ensures next[PointerXVar] == Percent(PointerPercentX(e, box))
    ensures next[PointerYVar] == Percent(PointerPercentY(e, box))
    ensures next[RotateXVar] == Deg(RotateX(PointerPercentY(e, box)))
    ensures next[RotateYVar] == Deg(RotateY(PointerPercentX(e, box)))
  {
    var x := PointerPercentX(e, box);
    var y := PointerPercentY(e, box);
    props[PointerXVar := Percent(x)][PointerYVar := Percent(y)]
         [RotateXVar := Deg(RotateX(y))][RotateYVar := Deg(RotateY(x))]
  }

  /** The style store after `handleMouseLeave`: rotation back to level, pointer kept. */
  function MouseLeaveProps(props: map<string, CssValue>): (next: map<string, CssValue>)
    ensures next.Keys == props.Keys + {RotateXVar, RotateYVar}
    ensures next[RotateXVar] == Deg(0.0) && next[RotateYVar] == Deg(0.0)
    ensures forall k :: k in props && k != RotateXVar && k != RotateYVar ==> next[k] == props[k]
  {
    props[RotateXVar := Deg(0.0)][RotateYVar := Deg(0.0)]
  }

  /** Leaving after a move levels the card and keeps the highlight where the pointer left it. */
  lemma LeaveAfterMove(props: map<string, CssValue>, e: MouseEvent, box: Rect)
    requires box.width != 0.0 && box.height != 0.0
    ensures var next := MouseLeaveProps(MouseMoveProps(props, e, box));
      && next.Keys == props.Keys + TiltVars()
      && next[RotateXVar] == Deg(0.0) && next[RotateYVar] == Deg(0.0)
      && next[PointerXVar] == Percent(PointerPercentX(e, box))
      && next[PointerYVar] == Percent(PointerPercentY(e, box))
  {
  }

  /** `handleMouseMove` on the card element. */
  method HandleMouseMove(card: StyleDeclaration, e: MouseEvent, box: Rect)
    requires box.width != 0.0 && box.height != 0.0
    modifies card
    ensures card.props == MouseMoveProps(old(card.props), e, box)
  {
    var x := ((e.clientX - box.left) / box.width) * 100.0;
    var y := ((e.clientY - box.top) / box.height) * 100.0;
    var rotateX := (y - 50.0) * TiltFactor;
    var rotateY := (x - 50.0) * -TiltFactor;
    card.SetProperty(PointerXVar, Percent(x));
    card.SetProperty(PointerYVar, Percent(y));
    card.SetProperty(RotateXVar, Deg(rotateX));
    card.SetProperty(RotateYVar, Deg(rotateY));
  }

  /** `handleMouseLeave` on the card element. */
  method HandleMouseLeave(card: StyleDeclaration)
    modifies card
    ensures card.props == MouseLeaveProps(old(card.props))
  {
    card.SetProperty(RotateXVar, Deg(0.0));
    card.SetProperty(RotateYVar, Deg(0.0));
  }

  /** The four rarity strings the switches name. */
  function KnownRarityNames(): set<JsString>
  {
    {RarityName(Common), RarityName(Rare), RarityName(UltraRare), RarityName(Legendary)}
  }

  /** `getRarityColor`: a Tailwind text-colour class for any string. */
  function RarityColor(rarity: JsString): (cls: JsString)
    ensures rarity !in KnownRarityNames() ==> cls == Js("text-gray-400")
    ensures cls in {Js("text-gray-400"), Js("text-blue-400"), Js("text-purple-400"), Js("text-yellow-400")}
  {
    if rarity == RarityName(Common) then Js("text-gray-400")
    else if rarity == RarityName(Rare) then Js("text-blue-400")
    else if rarity == RarityName(UltraRare) then Js("text-purple-400")
    else if rarity == RarityName(Legendary) then Js("text-yellow-400")
    else Js("text-gray-400")
  }

  /** `getRaritySymbol`: a glyph for any string. */
  function RaritySymbol(rarity: JsString): (sym: JsString)
    ensures rarity !in KnownRarityNames() ==> sym == Js("●")
    ensures sym in {Js("●"), Js("◆"), Js("★"), Js("✦")}
  {
    if rarity == RarityName(Common) then Js("●")
    else if rarity == RarityName(Rare) then Js("◆")
    else if rarity == RarityName(UltraRare) then Js("★")
    else if rarity == RarityName(Legendary) then Js("✦")
    else Js("●")
  }

  /** Each rarity of the record gets its own colour and glyph. */
  lemma RarityLookupTable(r: Rarity)
    ensures r == Common ==> RarityColor(RarityName(r)) == Js("text-gray-400") && RaritySymbol(RarityName(r)) == Js("●")
    ensures r == Rare ==> RarityColor(RarityName(r)) == Js("text-blue-400") && RaritySymbol(RarityName(r)) == Js("◆")
    ensures r == UltraRare ==> RarityColor(RarityName(r)) == Js("text-purple-400") && RaritySymbol(RarityName(r)) == Js("★")
    ensures r == Legendary ==> RarityColor(RarityName(r)) == Js("text-yellow-400") && RaritySymbol(RarityName(r)) == Js("✦")
  {
    assert |RarityName(Common)| == 6 && |RarityName(Rare)| == 4;
    assert |RarityName(UltraRare)| == 10 && |RarityName(Legendary)| == 9;
  }

  /** Distinct rarities are told apart by their glyphs. */
  lemma RaritySymbolsDistinct(a: Rarity, b: Rarity)
    requires a != b
    ensures RaritySymbol(RarityName(a)) != RaritySymbol(RarityName(b))
  {
    RarityLookupTable(a);
    RarityLookupTable(b);
    assert Js("●")[0] == 0x25CF && Js("◆")[0] == 0x25C6 && Js("★")[0] == 0x2605 && Js("✦")[0] == 0x2726;
  }

  /** The label under the name: `rarity.replace('-', ' ')`, first hyphen only. */
  function RarityLabel(rarity: JsString): (shown: JsString)
    ensures |shown| == |rarity|
    ensures Hyphen !in rarity ==> shown == rarity
    ensures forall j :: 0 <= j < |rarity| && rarity[j] != Hyphen ==> shown[j] == rarity[j]
    ensures Hyphen in rarity ==> shown[IndexOf(rarity, Hyphen)] == Space
    ensures Hyphen in rarity ==> forall j :: IndexOf(rarity, Hyphen) < j < |rarity| ==> shown[j] == rarity[j]
  {
    if Hyphen in rarity then
      HyphenReplaced(rarity);
      ReplaceFirst(rarity, Hyphen, [Space])
    else
      ReplaceFirst(rarity, Hyphen, [Space])
  }

  /** Replacing the first hyphen by a space changes that one unit only. */
  lemma HyphenReplaced(rarity: JsString)
    requires Hyphen in rarity
    ensures var i, r := IndexOf(rarity, Hyphen), ReplaceFirst(rarity, Hyphen, [Space]);
      && |r| == |rarity| && r[i] == Space
      && forall j :: 0 <= j < |rarity| && j != i ==> r[j] == rarity[j]
  {
    var i := IndexOf(rarity, Hyphen);
    var r := ReplaceFirst(rarity, Hyphen, [Space]);
    assert r == rarity[..i] + [Space] + rarity[i + 1..];
  }

  /** "ultra-rare" is shown as "ultra rare"; the other names contain no hyphen. */
  lemma RarityLabels(r: Rarity)
    ensures RarityLabel(RarityName(r)) == if r == UltraRare then Js("ultra rare") else RarityName(r)
  {
    if r == UltraRare {
      UltraRareLabel();
    } else {
      var s := RarityName(r);
      assert forall j :: 0 <= j < |s| ==> s[j] != Hyphen;
    }
  }

  lemma UltraRareLabel()
    ensures RarityLabel(Js("ultra-rare")) == Js("ultra rare")
  {
    var ultra: JsString := [0x75, 0x6C, 0x74, 0x72, 0x61];
    var rare: JsString := [0x72, 0x61, 0x72, 0x65];
    var s := Js("ultra-rare");
    assert s == ultra + [Hyphen] + rare;
    assert Js("ultra rare") == ultra + [Space] + rare;
    assert s[..5] == ultra && s[6..] == rare;
    IndexOfAt(s, Hyphen, 5);
    assert ReplaceFirst(s, Hyphen, [Space]) == ultra + [Space] + rare;
  }

  /** The image layer's CSS filter: `brightness(...) contrast(...)`. */
  datatype ImageFilter = ImageFilter(brightness: real, contrast: real)

  /** The image filter for an effect intensity (percent). */
  function ImageFilterFor(intensity: real): (f: ImageFilter)
    ensures intensity == 0.0 ==> f == ImageFilter(1.0, 1.0)
    ensures 0.0 <= intensity <= 100.0 ==> 1.0 <= f.brightness <= 1.5 && 1.0 <= f.contrast <= 1.25
    ensures f.brightness - 1.0 == 2.0 * (f.contrast - 1.0)
  {
    ImageFilter(1.0 + intensity / 200.0, 1.0 + intensity / 400.0)
  }

  /** The opacity of the shine layer, and the `--effect-intensity` fraction. */
  function ShineOpacity(intensity: real): (o: real)
    ensures intensity == 0.0 ==> o == 0.0
    ensures 0.0 <= intensity <= 100.0 ==> 0.0 <= o <= 1.0
  {
    intensity / 100.0
  }

  /** Brightness rises by 1/200 and contrast by 1/400 per intensity point. */
  lemma ImageFilterSlope(i: real, j: real)
    ensures ImageFilterFor(i).brightness - ImageFilterFor(j).brightness == (i - j) / 200.0
    ensures ImageFilterFor(i).contrast - ImageFilterFor(j).contrast == (i - j) / 400.0
  {
  }

  /** The shine opacity rises by 1/100 per intensity point. */
  lemma ShineOpacitySlope(i: real, j: real)
    ensures ShineOpacity(i) - ShineOpacity(j) == (i - j) / 100.0
  {
  }

  /** All intensity-derived values grow with the intensity. */
  lemma IntensityStylesMonotone(i: real, j: real)
    requires i <= j
    ensures ImageFilterFor(i).brightness <= ImageFilterFor(j).brightness
    ensures ImageFilterFor(i).contrast <= ImageFilterFor(j).contrast
    ensures ShineOpacity(i) <= ShineOpacity(j)
  {
  }

  /** Four `Math.random()` results, one per particle attribute, each in [0, 1). */
  datatype RandomDraw = RandomDraw(left: real, top: real, delay: real, duration: real)

  predicate IsUnitInterval(u: real)
  {
    0.0 <= u < 1.0
  }

  predicate ValidDraw(d: RandomDraw)
  {
    IsUnitInterval(d.left) && IsUnitInterval(d.top) && IsUnitInterval(d.delay) && IsUnitInterval(d.duration)
  }

  /** A glitter particle: position in percent of the card, animation timing in seconds. */
  datatype Particle = Particle(leftPercent: real, topPercent: real, delaySeconds: real, durationSeconds: real)

  predicate ParticleInBounds(p: Particle)
  {
    && 0.0 <= p.leftPercent < 100.0
    && 0.0 <= p.topPercent < 100.0
    && 0.0 <= p.delaySeconds < 2.0
    && 1.0 <= p.durationSeconds < 2.0
  }

  function MakeParticle(d: RandomDraw): (p: Particle)
    requires ValidDraw(d)
    ensures ParticleInBounds(p)
  {
    Particle(d.left * 100.0, d.top * 100.0, d.delay * 2.0, 1.0 + d.duration)
  }

  /** `Math.floor(glitterDensity / 10)`. */
  function GlitterCount(density: real): (n: int)
    ensures n as real <= density / 10.0 < n as real + 1.0
    ensures 0.0 <= density <= 100.0 ==> 0 <= n <= 10
  {
    (density / 10.0).Floor
  }

  /**
   * The glitter layer: absent unless the density is positive; otherwise one
   * particle per group of ten density points, placed by the random draws.
   */
  function GlitterLayer(density: real, draws: seq<RandomDraw>): (layer: Option<seq<Particle>>)
    requires density > 0.0 ==> |draws| >= GlitterCount(density)
    requires forall k :: 0 <= k < |draws| ==> ValidDraw(draws[k])
    ensures layer.Some? <==> density > 0.0
    ensures layer.Some? ==> |layer.value| == GlitterCount(density)
    ensures layer.Some? ==> forall k :: 0 <= k < |layer.value| ==> ParticleInBounds(layer.value[k])
    ensures layer.Some? ==> forall k :: 0 <= k < |layer.value| ==> layer.value[k] == MakeParticle(draws[k])
  {
    if density > 0.0 then
      var n := GlitterCount(density);
      Some(seq(n, k requires 0 <= k < n => MakeParticle(draws[k])))
    else None
  }

  /** The documented particle counts. */
  lemma GlitterCounts()
    ensures GlitterCount(5.0) == 0 && GlitterCount(55.0) == 5 && GlitterCount(100.0) == 10 && GlitterCount(50.0) == 5
    ensures GlitterLayer(5.0, []) == Some([]) && GlitterLayer(0.0, []) == None
  {
  }
}
