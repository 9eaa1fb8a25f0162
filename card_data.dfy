/**
 * The card record owned by the page component, its default value, and the
 * spread-merge `{...prev, ...updates}` through which every edit reaches it.
 */
module CardData {
  import opened Wrappers
  import opened JsText

  datatype Rarity = Common | Rare | UltraRare | Legendary
  datatype Template = Regular | RainbowTemplate | Cosmos
  datatype Palette = RainbowPalette | Blue | Red | Custom

  /** The string literal each rarity is written as. */
  function RarityName(r: Rarity): (s: JsString)
    ensures |s| > 0
  {
    match r
    case Common => Js("common")
    case Rare => Js("rare")
    case UltraRare => Js("ultra-rare")
    case Legendary => Js("legendary")
  }

  /**
   * The record. `image` is `null` until an upload and may later hold `""`
   * (clear-image); the two numbers are JavaScript numbers, taken as exact reals.
   */
  datatype Card = Card(
    image: Option<JsString>,
    name: JsString,
    description: JsString,
    rarity: Rarity,
    cardNumber: JsString,
    setInfo: JsString,
    template: Template,
    effectIntensity: real,
    colorPalette: Palette,
    glitterDensity: real,
    showScanlines: bool)

  /** JavaScript truthiness of `card.image`: neither `null` nor `""`. */
  function HasImage(image: Option<JsString>): (truthy: bool)
    ensures image == None ==> !truthy
    ensures image == Some([]) ==> !truthy
    ensures image.Some? && |image.value| > 0 ==> truthy
  {
    image.Some? && image.value != []
  }

  /** `Partial<CardData>`: each field either present with a value or absent. */
  datatype CardUpdate = CardUpdate(
    image: Option<Option<JsString>>,
    name: Option<JsString>,
    description: Option<JsString>,
    rarity: Option<Rarity>,
    cardNumber: Option<JsString>,
    setInfo: Option<JsString>,
    template: Option<Template>,
    effectIntensity: Option<real>,
    colorPalette: Option<Palette>,
    glitterDensity: Option<real>,
    showScanlines: Option<bool>)

  /** The update with no field present, `{}`. */
  const NoChanges := CardUpdate(None, None, None, None, None, None, None, None, None, None, None)

  /** The names of the record's fields, for stating field-wise properties. */
  datatype Field =
    | ImageField | NameField | DescriptionField | RarityField | CardNumberField | SetInfoField
    | TemplateField | EffectIntensityField | ColorPaletteField | GlitterDensityField | ShowScanlinesField

  datatype FieldValue =
    | ImageValue(image: Option<JsString>)
    | TextValue(text: JsString)
    | RarityValue(rarity: Rarity)
    | TemplateValue(template: Template)
    | NumberValue(number: real)
    | PaletteValue(palette: Palette)
    | FlagValue(flag: bool)

  /** `card[f]`. */
  function Get(c: Card, f: Field): FieldValue
  {
    match f
    case ImageField => ImageValue(c.image)
    case NameField => TextValue(c.name)
    case DescriptionField => TextValue(c.description)
    case RarityField => RarityValue(c.rarity)
    case CardNumberField => TextValue(c.cardNumber)
    case SetInfoField => TextValue(c.setInfo)
    case TemplateField => TemplateValue(c.template)
    case EffectIntensityField => NumberValue(c.effectIntensity)
    case ColorPaletteField => PaletteValue(c.colorPalette)
    case GlitterDensityField => NumberValue(c.glitterDensity)
    case ShowScanlinesField => FlagValue(c.showScanlines)
  }

  /** `updates[f]` when `f` is present in `updates`, `None` when it is absent. */
  function Given(u: CardUpdate, f: Field): Option<FieldValue>
  {
    match f
    case ImageField => if u.image.Some? then Some(ImageValue(u.image.value)) else None
    case NameField => if u.name.Some? then Some(TextValue(u.name.value)) else None
    case DescriptionField => if u.description.Some? then Some(TextValue(u.description.value)) else None
    case RarityField => if u.rarity.Some? then Some(RarityValue(u.rarity.value)) else None
    case CardNumberField => if u.cardNumber.Some? then Some(TextValue(u.cardNumber.value)) else None
    case SetInfoField => if u.setInfo.Some? then Some(TextValue(u.setInfo.value)) else None
    case TemplateField => if u.template.Some? then Some(TemplateValue(u.template.value)) else None
    case EffectIntensityField =>
      if u.effectIntensity.Some? then Some(NumberValue(u.effectIntensity.value)) else None
    case ColorPaletteField => if u.colorPalette.Some? then Some(PaletteValue(u.colorPalette.value)) else None
    case GlitterDensityField =>
      if u.glitterDensity.Some? then Some(NumberValue(u.glitterDensity.value)) else None
    case ShowScanlinesField => if u.showScanlines.Some? then Some(FlagValue(u.showScanlines.value)) else None
  }

  /** Two records that agree on every field are the same record. */
  lemma SameFields(a: Card, b: Card)
    requires forall f :: Get(a, f) == Get(b, f)
    ensures a == b
  {
    assert Get(a, ImageField) == Get(b, ImageField);
    assert Get(a, NameField) == Get(b, NameField);
    assert Get(a, DescriptionField) == Get(b, DescriptionField);
    assert Get(a, RarityField) == Get(b, RarityField);
    assert Get(a, CardNumberField) == Get(b, CardNumberField);
    assert Get(a, SetInfoField) == Get(b, SetInfoField);
    assert Get(a, TemplateField) == Get(b, TemplateField);
    assert Get(a, EffectIntensityField) == Get(b, EffectIntensityField);
    assert Get(a, ColorPaletteField) == Get(b, ColorPaletteField);
    assert Get(a, GlitterDensityField) == Get(b, GlitterDensityField);
    assert Get(a, ShowScanlinesField) == Get(b, ShowScanlinesField);
  }

  /** The record the page starts with. */
  function DefaultCard(): (c: Card)
    ensures c.image == None && !HasImage(c.image)
    ensures c.rarity == UltraRare && c.template == RainbowTemplate && c.colorPalette == RainbowPalette
    ensures c.effectIntensity == 75.0 && c.glitterDensity == 50.0 && c.showScanlines
    ensures c.cardNumber == Js("001") && c.setInfo == Js("Holographic Series")
  {
    Card(
      image := None,
      name := Js("나도 침착맨"),
      description := Js("홀로그래픽 카드 생성기로 만든 특별한 카드"),
      rarity := UltraRare,
      cardNumber := Js("001"),
      setInfo := Js("Holographic Series"),
      template := RainbowTemplate,
      effectIntensity := 75.0,
      colorPalette := RainbowPalette,
      glitterDensity := 50.0,
      showScanlines := true)
  }

  /**
   * `updateCardData`: `{...prev, ...updates}`. Every field present in the
   * update takes its new value; every absent field keeps its old one.
   */
  function UpdateCardData(prev: Card, u: CardUpdate): (next: Card)
    ensures forall f :: Given(u, f).Some? ==> Get(next, f) == Given(u, f).value
    ensures forall f :: Given(u, f).None? ==> Get(next, f) == Get(prev, f)
  {
    Card(
      image := if u.image.Some? then u.image.value else prev.image,
      name := u.name.GetOr(prev.name),
      description := u.description.GetOr(prev.description),
      rarity := u.rarity.GetOr(prev.rarity),
      cardNumber := u.cardNumber.GetOr(prev.cardNumber),
      setInfo := u.setInfo.GetOr(prev.setInfo),
      template := u.template.GetOr(prev.template),
      effectIntensity := u.effectIntensity.GetOr(prev.effectIntensity),
      colorPalette := u.colorPalette.GetOr(prev.colorPalette),
      glitterDensity := u.glitterDensity.GetOr(prev.glitterDensity),
      showScanlines := u.showScanlines.GetOr(prev.showScanlines))
  }

  /** One field of `{...first, ...second}`. */
  function Later<T>(first: Option<T>, second: Option<T>): Option<T>
  {
    if second.Some? then second else first
  }

  /** `{...first, ...second}` on two partial records. */
  function MergeUpdates(first: CardUpdate, second: CardUpdate): CardUpdate
  {
    CardUpdate(
      image := Later(first.image, second.image),
      name := Later(first.name, second.name),
      description := Later(first.description, second.description),
      rarity := Later(first.rarity, second.rarity),
      cardNumber := Later(first.cardNumber, second.cardNumber),
      setInfo := Later(first.setInfo, second.setInfo),
      template := Later(first.template, second.template),
      effectIntensity := Later(first.effectIntensity, second.effectIntensity),
      colorPalette := Later(first.colorPalette, second.colorPalette),
      glitterDensity := Later(first.glitterDensity, second.glitterDensity),
      showScanlines := Later(first.showScanlines, second.showScanlines))
  }

  /** In a merged partial record, the later one's fields win and the earlier one fills the rest. */
  lemma MergeUpdatesGiven(first: CardUpdate, second: CardUpdate, f: Field)
    ensures Given(MergeUpdates(first, second), f) == if Given(second, f).Some? then Given(second, f) else Given(first, f)
  {
    match f { case _ => }
  }

  /** The update the image uploader's callback sends: `{ image }`. */
  function ImageUpdate(image: JsString): (u: CardUpdate)
    ensures forall f :: Given(u, f).Some? <==> f == ImageField
    ensures Given(u, ImageField) == Some(ImageValue(Some(image)))
  {
    NoChanges.(image := Some(Some(image)))
  }

  /** An empty update leaves the record as it was. */
  lemma EmptyUpdateIsIdentity(c: Card)
    ensures UpdateCardData(c, NoChanges) == c
  {
    var next := UpdateCardData(c, NoChanges);
    forall f ensures Get(next, f) == Get(c, f) {
      assert Given(NoChanges, f).None? by { match f { case _ => } }
    }
    SameFields(next, c);
  }

  /** Applying the same update twice is applying it once. */
  lemma UpdateIdempotent(c: Card, u: CardUpdate)
    ensures UpdateCardData(UpdateCardData(c, u), u) == UpdateCardData(c, u)
  {
    var once := UpdateCardData(c, u);
    var twice := UpdateCardData(once, u);
    forall f ensures Get(twice, f) == Get(once, f) {
      if Given(u, f).Some? {
        assert Get(twice, f) == Given(u, f).value == Get(once, f);
      } else {
        assert Get(twice, f) == Get(once, f);
      }
    }
    SameFields(twice, once);
  }

  /** Two successive updates are one merged update in which the later values win. */
  lemma UpdatesCompose(c: Card, first: CardUpdate, second: CardUpdate)
    ensures UpdateCardData(UpdateCardData(c, first), second) == UpdateCardData(c, MergeUpdates(first, second))
  {
    var stepwise := UpdateCardData(UpdateCardData(c, first), second);
    var merged := UpdateCardData(c, MergeUpdates(first, second));
    forall f ensures Get(stepwise, f) == Get(merged, f) {
      MergeUpdatesGiven(first, second, f);
      if Given(second, f).Some? {
        assert Get(stepwise, f) == Given(second, f).value;
      } else if Given(first, f).Some? {
        assert Get(stepwise, f) == Given(first, f).value;
      } else {
        assert Get(stepwise, f) == Get(c, f);
      }
    }
    SameFields(stepwise, merged);
  }
}
