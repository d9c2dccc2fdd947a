/** The Button component's class resolution (base, variant, size, then the caller's
    class) and its choice between an anchor and a native button. */
module Button {
  import opened Text
  import opened Tokens
  import Presets

  /** The declared `variant` domain. */
  datatype Variant = Primary | Secondary | TextOnly | Icon {
    function Key(): string {
      match this
      case Primary => "primary"
      case Secondary => "secondary"
      case TextOnly => "text"
      case Icon => "icon"
    }
  }

  /** The declared `size` domain. */
  datatype Size = Sm | Md | Lg {
    function Key(): string {
      match this
      case Sm => "sm"
      case Md => "md"
      case Lg => "lg"
    }
  }

  /** The keys `variantStyles` declares. */
  predicate DeclaredVariant(variant: string) {
    variant == "primary" || variant == "secondary" || variant == "text" || variant == "icon"
  }

  /** The keys `sizeStyles` declares. */
  predicate DeclaredSize(size: string) {
    size == "sm" || size == "md" || size == "lg"
  }

  const baseStyles: string :=
    "inline-flex items-center justify-center font-medium transition-colors duration-200 focus-visible:outline-2 focus-visible:outline-offset-2 focus-visible:outline-gray-900 disabled:opacity-50 disabled:pointer-events-none"

  /** `variantStyles[variant]`: `undefined` (None) for a key the table does not declare. */
  function VariantStyle(variant: string): Option<string> {
    if variant == "primary" then Some("bg-primary text-white hover:bg-primary-dark rounded-lg")
    else if variant == "secondary" then Some("bg-white text-gray-800 border-2 border-gray-300 hover:bg-gray-50 rounded-lg")
    else if variant == "text" then Some("text-gray-800 hover:text-gray-600 no-underline")
    else if variant == "icon" then Some("rounded-full hover:bg-gray-200/50")
    else None
  }

  /** `sizeStyles[size]`, whose entries are square for the icon variant. */
  function SizeStyle(variant: string, size: string): Option<string> {
    var icon := variant == "icon";
    if size == "sm" then Some(if icon then "w-10 h-10" else "px-4 py-2 text-sm")
    else if size == "md" then Some(if icon then "w-12 h-12" else "px-6 py-3 text-base")
    else if size == "lg" then Some(if icon then "w-14 h-14" else "px-8 py-4 text-lg")
    else None
  }

  /** `combinedClassName` */
  function ClassName(variant: string, size: string, className: string): string {
    Cn([Some(baseStyles), VariantStyle(variant), SizeStyle(variant, size), Some(className)])
  }

  /** Props as the caller passes them; `None` is an omitted prop. */
  datatype Props = Props(
    variant: Option<string>, size: Option<string>, className: Option<string>,
    asLink: Option<bool>, href: Option<string>, disabled: Option<bool>, buttonType: Option<string>)

  /** The rendered element: both forms carry the tap animation. */
  datatype Rendered =
    | Anchor(href: string, className: string, whileTap: Presets.Scale)
    | NativeButton(buttonType: string, disabled: bool, className: string, whileTap: Presets.Scale)
  {
    function Class(): string {
      match this
      case Anchor(_, c, _) => c
      case NativeButton(_, _, c, _) => c
    }
  }


  /** The component: defaults for omitted props, then the class string and the element. */
  function Render(p: Props): Rendered {
    var combined := ClassName(p.variant.GetOr("primary"), p.size.GetOr("md"), p.className.GetOr(""));
    if p.asLink.GetOr(false) && Truthy(p.href) then Anchor(p.href.value, combined, Presets.tapScale)
    else NativeButton(p.buttonType.GetOr("button"), p.disabled.GetOr(false), combined, Presets.tapScale)
  }

  // ---------------------------------------------------------------------------

  /** Every declared variant and size has a table entry. */
  lemma TablesCoverDomains(v: Variant, s: Size)
    ensures VariantStyle(v.Key()).Some? && VariantStyle(v.Key()).value != ""
    ensures SizeStyle(v.Key(), s.Key()).Some? && SizeStyle(v.Key(), s.Key()).value != ""
  {
    VariantTableCovers(v);
    SizeTableCovers(v.Key(), s);
  }

  lemma VariantTableCovers(v: Variant)
    ensures VariantStyle(v.Key()).Some? && VariantStyle(v.Key()).value != ""
  {
    match v
    case Primary =>
    case Secondary =>
    case TextOnly =>
    case Icon =>
  }

  lemma SizeTableCovers(variant: string, s: Size)
    ensures SizeStyle(variant, s.Key()).Some? && SizeStyle(variant, s.Key()).value != ""
  {
    match s
    case Sm =>
    case Md =>
    case Lg =>
  }

  /** The base styles, then each table entry that exists, then the caller's class, each
      after a single space; an absent or empty piece adds nothing. */
  lemma ClassShape(variant: string, size: string, className: string)
    ensures ClassName(variant, size, className) ==
      baseStyles + Spaced(Shown(VariantStyle(variant))) + Spaced(Shown(SizeStyle(variant, size))) + Spaced(className)
  {
    CnAfterHead3(baseStyles, VariantStyle(variant), SizeStyle(variant, size), Some(className));
  }

  /** The caller's class is appended last, after everything the tables contribute. */
  lemma OverrideComesLast(variant: string, size: string, className: string)
    ensures ClassName(variant, size, className) == ClassName(variant, size, "") + Spaced(className)
  {
    ClassShape(variant, size, className);
    ClassShape(variant, size, "");
  }

  /** The result always begins with the base styles. */
  lemma StartsWithBase(variant: string, size: string, className: string)
    ensures StartsWith(ClassName(variant, size, className), baseStyles)
  {
    ClassShape(variant, size, className);
  }

  /** For declared keys: base, variant, size and the caller's class, in that order,
      single-space separated, with nothing trailing when the caller's class is empty. */
  lemma DeclaredOrder(v: Variant, s: Size, className: string)
    ensures ClassName(v.Key(), s.Key(), className) ==
      baseStyles + " " + Shown(VariantStyle(v.Key())) + " " + Shown(SizeStyle(v.Key(), s.Key())) + Spaced(className)
  {
    var vs, ss := VariantStyle(v.Key()), SizeStyle(v.Key(), s.Key());
    TablesCoverDomains(v, s);
    ClassShape(v.Key(), s.Key(), className);
    SpacedPair(baseStyles, Shown(vs), Shown(ss), Spaced(className));
  }

  /** The icon variant's sizes are squares; every other variant's are padding buckets. */
  lemma SizeBuckets(variant: string)
    ensures SizeStyle("icon", "sm") == Some("w-10 h-10")
    ensures SizeStyle("icon", "md") == Some("w-12 h-12")
    ensures SizeStyle("icon", "lg") == Some("w-14 h-14")
    ensures variant != "icon" ==>
      && SizeStyle(variant, "sm") == Some("px-4 py-2 text-sm")
      && SizeStyle(variant, "md") == Some("px-6 py-3 text-base")
      && SizeStyle(variant, "lg") == Some("px-8 py-4 text-lg")
  {
  }

  /** No default bucket: an undeclared variant contributes nothing (it is `undefined`,
      which `cn` drops). */
  lemma UnknownVariantDropped(variant: string, s: Size, className: string)
    requires !DeclaredVariant(variant)
    ensures ClassName(variant, s.Key(), className) ==
      baseStyles + " " + Shown(SizeStyle(variant, s.Key())) + Spaced(className)
  {
    var ss := SizeStyle(variant, s.Key());
    assert VariantStyle(variant) == None;
    assert Shown(ss) != "";
    ClassShape(variant, s.Key(), className);
    SpacedSkip(baseStyles, Shown(ss), Spaced(className));
  }

  /** ... so an unknown variant does not fall back to the default one. */
  lemma NoDefaultVariant(variant: string, s: Size, className: string)
    requires !DeclaredVariant(variant)
    ensures ClassName(variant, s.Key(), className) != ClassName("primary", s.Key(), className)
  {
    UnknownVariantDropped(variant, s, className);
    DeclaredOrder(Primary, s, className);
    assert SizeStyle(variant, s.Key()) == SizeStyle("primary", s.Key());
    TablesCoverDomains(Primary, s);
  }

  /** An undeclared size contributes nothing either. */
  lemma UnknownSizeDropped(v: Variant, size: string, className: string)
    requires !DeclaredSize(size)
    ensures ClassName(v.Key(), size, className) ==
      baseStyles + " " + Shown(VariantStyle(v.Key())) + Spaced(className)
  {
    var vs := VariantStyle(v.Key());
    TablesCoverDomains(v, Sm);
    assert SizeStyle(v.Key(), size) == None;
    ClassShape(v.Key(), size, className);
    SpacedSkip(baseStyles, Shown(vs), Spaced(className));
  }

  /** With every prop omitted the element is a native `button` of type `button`, enabled,
      with the primary medium classes. */
  lemma DefaultsRender()
    ensures Render(Props(None, None, None, None, None, None, None)) ==
      NativeButton("button", false, ClassName(Primary.Key(), Md.Key(), ""), Presets.tapScale)
  {
  }

  /** ... in which the primary background comes before the medium padding. */
  lemma DefaultsPrimaryMedium()
    ensures OccursBefore(ClassName(Primary.Key(), Md.Key(), ""), "bg-primary", "px-6 py-3 text-base")
  {
    DeclaredOrder(Primary, Md, "");
    var vs := Shown(VariantStyle(Primary.Key()));
    var ss := Shown(SizeStyle(Primary.Key(), Md.Key()));
    assert vs == "bg-primary text-white hover:bg-primary-dark rounded-lg";
    assert ss == "px-6 py-3 text-base";
    StartsWithChars(vs, "bg-primary");
    OccursBeforeInParts(baseStyles, vs, ss, "bg-primary");
    assert baseStyles + " " + vs + " " + ss + Spaced("") == baseStyles + " " + vs + " " + ss;
  }

  /** The anchor form is chosen exactly when `asLink` is set and `href` is non-empty, and
      the class string never depends on `asLink`, `href`, `disabled` or `type`. */
  lemma RenderChoosesElement(p: Props)
    ensures Render(p).Anchor? <==> (p.asLink == Some(true) && Truthy(p.href))
    ensures Render(p).Anchor? ==> Render(p).href == p.href.value
    ensures Render(p).NativeButton? ==>
      Render(p).buttonType == p.buttonType.GetOr("button") && Render(p).disabled == (p.disabled == Some(true))
    ensures Render(p).Class() == ClassName(p.variant.GetOr("primary"), p.size.GetOr("md"), p.className.GetOr(""))
  {
  }
}
