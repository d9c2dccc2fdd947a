/** The NavLink component: a fixed list of registry classes with the caller's class last,
    wrapped in the `navLink` hover/tap preset. */
module NavLink {
  import opened Text
  import opened Tokens
  import Presets

  /** The fixed fragments, in the order they are passed to `cn`. */
  const fixedClasses: seq<string> := [
    colors.text.secondary,
    colors.interactive.hover,
    transitions.colors,
    typography.body,
    "md:text-lg",
    typography.weight.medium,
    "no-underline"
  ]

  /** `combinedClassName` */
  function ClassName(className: string): string {
    Cn(Present(fixedClasses) + [Some(className)])
  }

  /** The rendered link: its target, its class string and the wrapper's motion preset.
      The click handler is passed through untouched and is not modelled. */
  datatype Rendered = Rendered(to: string, className: string, motion: Presets.Interaction)

  function Render(to: string, className: Option<string>): Rendered {
    Rendered(to, ClassName(className.GetOr("")), Presets.navLink)
  }

  // ---------------------------------------------------------------------------

  lemma FixedNonEmpty()
    ensures forall k :: 0 <= k < |fixedClasses| ==> fixedClasses[k] != ""
  {
  }

  /** The fixed classes joined in their listed order, then the caller's class if non-empty. */
  lemma ClassShape(className: string)
    ensures ClassName(className) == Join(fixedClasses, " ") + Spaced(className)
  {
    FixedNonEmpty();
    CnPresent(fixedClasses);
    JoinEmpty(fixedClasses, " ");
    CnSnocClass(Present(fixedClasses), className);
  }

  /** The string opens with the secondary text colour, the hover colour and the colour
      transition, in that order. */
  lemma OpensWithColours(className: string)
    ensures StartsWith(ClassName(className),
      colors.text.secondary + " " + colors.interactive.hover + " " + transitions.colors + " ")
  {
    ClassShape(className);
    JoinPrefix(fixedClasses, 3, " ");
    assert fixedClasses[..3] == [colors.text.secondary, colors.interactive.hover, transitions.colors];
    JoinThree(colors.text.secondary, colors.interactive.hover, transitions.colors, " ");
  }

  /** The larger breakpoint size and the underline reset are always there. */
  lemma AlwaysResponsiveAndPlain(className: string)
    ensures Contains(ClassName(className), "md:text-lg")
    ensures Contains(ClassName(className), "no-underline")
  {
    ClassShape(className);
    assert fixedClasses[4] == "md:text-lg";
    assert fixedClasses[6] == "no-underline";
    JoinSpacedContains(fixedClasses, 4, Spaced(className));
    JoinSpacedContains(fixedClasses, 6, Spaced(className));
  }

  /** A non-empty caller class is the final segment; an empty one adds nothing. */
  lemma OverrideLast(className: string)
    ensures className != "" ==> EndsWith(ClassName(className), " " + className)
    ensures ClassName("") == Join(fixedClasses, " ")
  {
    ClassShape(className);
    ClassShape("");
  }

  /** The class string depends on the caller's class only, never on the target. */
  lemma ClassIgnoresTarget(to: string, to': string, className: Option<string>)
    ensures Render(to, className).className == Render(to', className).className
    ensures Render(to, className).to == to
    ensures Render(to, className).motion == Presets.Interaction(Presets.hoverScale.medium, Some(Presets.tapScale))
  {
  }
}
