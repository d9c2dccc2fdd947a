/** The Section component: a background class, a padding class, the caller's class, all
    trimmed; `animate` only picks a motion element that reveals on scroll. */
module Section {
  import opened Text
  import opened Tokens
  import Presets

  /** The declared `background` domain. */
  datatype Background = White | Primary {
    function Key(): string {
      match this
      case White => "white"
      case Primary => "primary"
    }
  }

  /** The declared `padding` domain. */
  datatype Padding = Default | Small | Large {
    function Key(): string {
      match this
      case Default => "default"
      case Small => "small"
      case Large => "large"
    }
  }

  /** `bgClass` */
  function BgClass(background: string): string {
    if background == "primary" then "bg-primary-light" else "bg-white"
  }

  /** `paddingClass` */
  function PaddingClass(padding: string): string {
    if padding == "large" then "py-section-y-lg" else if padding == "small" then "py-4" else "py-section-y"
  }

  /** `combinedClassName` */
  function ClassName(background: string, padding: string, className: string): string {
    Trim(BgClass(background) + " " + PaddingClass(padding) + " " + className)
  }

  /** Props as the caller passes them; `None` is an omitted prop. */
  datatype Props = Props(
    className: Option<string>, background: Option<string>, padding: Option<string>,
    animate: Option<bool>, ariaLabel: Option<string>)

  /** A plain `section`, or a motion section carrying its reveal animation. */
  datatype Rendered = Rendered(motion: Option<Presets.Entry>, className: string, ariaLabel: Option<string>)

  /** The motion section's inline reveal: up from 20px below, once, over 0.6s. */
  const revealMotion: Presets.Entry :=
    Presets.Entry(Presets.FadeAt(0.0, 20.0), Presets.FadeAt(1.0, 0.0), Presets.InView(true), Presets.Timing(0.6, None))

  function Render(p: Props): Rendered {
    var className := p.className.GetOr("");
    var background := p.background.GetOr("white");
    var padding := p.padding.GetOr("default");
    var combined := ClassName(background, padding, className);
    Rendered(if p.animate.GetOr(false) then Some(revealMotion) else None, combined, p.ariaLabel)
  }

  // ---------------------------------------------------------------------------

  /** The two class tables agree with the token registry, and fall back to the defaults. */
  lemma ClassesFromTokens(background: string, padding: string)
    ensures BgClass(background) == if background == "primary" then colors.bg.primary else colors.bg.white
    ensures PaddingClass(padding) ==
      if padding == "large" then spacing.section.yLarge
      else if padding == "small" then "py-4"
      else spacing.section.y
    ensures background != "primary" ==> BgClass(background) == BgClass(White.Key())
    ensures padding !in {"large", "small"} ==> PaddingClass(padding) == PaddingClass(Default.Key())
  {
  }

  lemma HeadTrimmed(background: string, padding: string)
    ensures Trimmed(BgClass(background) + " " + PaddingClass(padding))
  {
    var b, q := BgClass(background), PaddingClass(padding);
    assert b[0] == 'b';
    assert q[|q| - 1] in {'y', '4', 'g'};
  }

  /** Background first, padding second, then the caller's class without its trailing
      whitespace (nothing at all, and no trailing space, when it is blank). */
  lemma ClassShape(background: string, padding: string, className: string)
    ensures ClassName(background, padding, className) ==
      BgClass(background) + " " + PaddingClass(padding) + TrailingSegment(className)
  {
    HeadTrimmed(background, padding);
    TrimAfterHead(BgClass(background) + " " + PaddingClass(padding), className);
  }

  /** With every prop omitted the section is white with the default padding. */
  lemma Defaults()
    ensures Render(Props(None, None, None, None, None)) ==
      Rendered(None, ClassName(White.Key(), Default.Key(), ""), None)
  {
  }

  /** A blank caller class leaves exactly the background and padding classes. */
  lemma BlankOverrideDropped(background: string, padding: string, className: string)
    requires AllWhitespace(className)
    ensures ClassName(background, padding, className) == BgClass(background) + " " + PaddingClass(padding)
  {
    ClassShape(background, padding, className);
    BlankTrimEnd(className);
  }

  /** `animate` decides only the element; the reveal is `fadeInView` from a 20px offset. */
  lemma AnimateOnlyPicksElement(p: Props)
    ensures Render(p).className == Render(p.(animate := None)).className
    ensures Render(p).motion.Some? <==> p.animate == Some(true)
    ensures revealMotion == Presets.fadeInView.(initial := Presets.FadeAt(0.0, 20.0))
  {
  }
}
