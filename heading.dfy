/** The Heading component: a variant class from a ternary chain, the caller's class
    appended and the whole trimmed, and an `h1`..`h6` tag. */
module Heading {
  import opened Text
  import opened Tokens
  import Presets

  /** The declared `variant` domain. */
  datatype Variant = Default | Hero | Display | SectionTitle {
    function Key(): string {
      match this
      case Default => "default"
      case Hero => "hero"
      case Display => "display"
      case SectionTitle => "section"
    }
  }

  /** The declared `level` domain. */
  type Level = l: int | 1 <= l <= 6 witness 1

  /** `variantClass`: the three styled variants, and `''` for anything else. */
  function VariantClass(variant: string): string {
    if variant == "hero" then "text-hero font-cursive"
    else if variant == "display" then "text-display font-cursive"
    else if variant == "section" then "text-section-title font-medium"
    else ""
  }

  /** `combinedClassName` */
  function ClassName(variant: string, className: string): string {
    Trim(VariantClass(variant) + " " + className)
  }

  /** `h${level}` */
  function Tag(level: Level): string {
    "h" + [(('0' as int) + level) as char]
  }

  /** Props as the caller passes them; `None` is an omitted prop. */
  datatype Props = Props(level: Option<Level>, className: Option<string>, variant: Option<string>, animate: Option<bool>)

  /** The rendered heading; `wrapper` is the motion wrapper present when animated. */
  datatype Rendered = Rendered(tag: string, className: string, wrapper: Option<Presets.Entry>)

  /** The wrapper's inline motion: fade in from 20px above, 0.6s after a 0.2s delay. */
  const entryMotion: Presets.Entry :=
    Presets.Entry(Presets.FadeAt(0.0, -20.0), Presets.FadeAt(1.0, 0.0), Presets.OnMount, Presets.Timing(0.6, Some(0.2)))

  function Render(p: Props): Rendered {
    var level := p.level.GetOr(1);
    var className := p.className.GetOr("");
    var variant := p.variant.GetOr("default");
    var animate := p.animate.GetOr(false);
    Rendered(Tag(level), ClassName(variant, className), if animate then Some(entryMotion) else None)
  }

  // ---------------------------------------------------------------------------

  /** Hero and section reuse the typography tokens; display does NOT: it pairs the
      display size with the cursive font where the token has bold. */
  lemma VariantsAgainstTypography()
    ensures VariantClass("hero") == typography.hero
    ensures VariantClass("section") == typography.sectionTitle
    ensures VariantClass("display") == "text-display font-cursive"
    ensures VariantClass("display") != typography.display
  {
    assert |"text-display font-cursive"| == 25;
    assert |typography.display| == 22;
  }

  /** Any undeclared variant behaves exactly like the default one. */
  lemma UnknownVariantIsDefault(variant: string, className: string)
    requires variant !in {"hero", "display", "section"}
    ensures VariantClass(variant) == VariantClass("default") == ""
    ensures ClassName(variant, className) == ClassName("default", className)
  {
  }

  lemma VariantClassTrimmed(variant: string)
    ensures Trimmed(VariantClass(variant))
  {
    var v := VariantClass(variant);
    if v != "" {
      assert v[0] == 't';
      assert v[|v| - 1] in {'e', 'm'};
    }
  }

  /** The class string is the variant class followed by the caller's class without its
      trailing whitespace; with no variant class it is the caller's class trimmed. */
  lemma ClassShape(variant: string, className: string)
    ensures ClassName(variant, className) ==
      if VariantClass(variant) == "" then Trim(className)
      else VariantClass(variant) + TrailingSegment(className)
  {
    var v := VariantClass(variant);
    if v == "" {
      assert v + " " + className == " " + className;
      TrimStartSpace(className);
    } else {
      VariantClassTrimmed(variant);
      TrimAfterHead(v, className);
    }
  }

  /** With the default empty caller class the result is the variant class exactly. */
  lemma NoOverrideIsVariantClass(variant: string)
    ensures ClassName(variant, "") == VariantClass(variant)
  {
    ClassShape(variant, "");
  }

  /** With the default variant the result is the caller's class, trimmed. */
  lemma DefaultVariantTrimsOverride(className: string)
    ensures ClassName("default", className) == Trim(className)
  {
    assert VariantClass("default") == "";
    ClassShape("default", className);
  }

  /** The tag is `h` and the level digit; distinct levels give distinct tags. */
  lemma TagShape(level: Level, other: Level)
    ensures Tag(level) == "h" + ["123456"[level - 1]]
    ensures |Tag(level)| == 2 && Tag(level)[0] == 'h'
    ensures Tag(1) == "h1" && Tag(6) == "h6"
    ensures Tag(level) == Tag(other) ==> level == other
  {
    if Tag(level) == Tag(other) {
      assert Tag(level)[1] == Tag(other)[1];
    }
  }

  /** Level and `animate` never change the class string; `animate` only adds the wrapper,
      whose motion is the `fadeUp` preset written out inline. */
  lemma RenderSeparatesConcerns(p: Props)
    ensures Render(p).className ==
      ClassName(p.variant.GetOr("default"), p.className.GetOr(""))
    ensures Render(p).tag == Tag(p.level.GetOr(1))
    ensures Render(p).wrapper.Some? <==> p.animate == Some(true)
    ensures Render(p).wrapper.Some? ==> Render(p).wrapper.value == Presets.fadeUp
  {
  }
}
