/**
 * An element's inline style declaration, seen as a store of CSS custom
 * properties (`element.style.setProperty(name, value)`).
 */
module Css {

  /** The values the tool writes: a percentage (`12.5%`) or an angle (`-3deg`). */
  datatype CssValue = Percent(percent: real) | Deg(degrees: real)

  class StyleDeclaration {
    var props: map<string, CssValue>

    constructor ()
      ensures props == map[]
    {
      props := map[];
    }

    /** `style.setProperty(name, value)`: sets one property, keeps all others. */
    method SetProperty(name: string, value: CssValue)
      modifies this
      ensures props == old(props)[name := value]
    {
      props := props[name := value];
    }
  }
}
