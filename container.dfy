/** The Container component: a max-width class from a ternary chain, fixed centring
    and gutters, the caller's class, all trimmed. */
module Container {
  import opened Text
  import opened Tokens

  /** The declared `maxWidth` domain. */
  datatype MaxWidth = Default | Small | Medium | Large {
    function Key(): string {
      match this
      case Default => "default"
      case Small => "small"
      case Medium => "medium"
      case Large => "large"
    }
  }

  /** `maxWidthClass`: anything but the three named widths gets the widest. */
  function MaxWidthClass(maxWidth: string): string {
    if maxWidth == "small" then "max-w-2xl"
    else if maxWidth == "medium" then "max-w-4xl"
    else if maxWidth == "large" then "max-w-6xl"
    else "max-w-7xl"
  }

  /** The fixed part of the template between the width and the caller's class. */
  const gutters: string := "mx-auto px-4 sm:px-6 lg:px-8"

  /** `combinedClassName` */
  function ClassName(maxWidth: string, className: string): string {
    Trim(MaxWidthClass(maxWidth) + " " + gutters + " " + className)
  }

  /** Props as the caller passes them; `None` is an omitted prop. */
  datatype Props = Props(className: Option<string>, maxWidth: Option<string>)

  /** The rendered `div`; the remaining props are passed through untouched. */
  datatype Rendered = Rendered(className: string)

  function Render(p: Props): Rendered {
    Rendered(ClassName(p.maxWidth.GetOr("default"), p.className.GetOr("")))
  }

  // ---------------------------------------------------------------------------

  /** The widths are the registry's container widths, the default being the widest. */
  lemma WidthsFromLayout(maxWidth: string)
    ensures MaxWidthClass(Small.Key()) == layout.container.sm
    ensures MaxWidthClass(Medium.Key()) == layout.container.md
    ensures MaxWidthClass(Large.Key()) == layout.container.lg
    ensures MaxWidthClass(Default.Key()) == layout.container.xl
    ensures maxWidth !in {"small", "medium", "large"} ==> MaxWidthClass(maxWidth) == MaxWidthClass(Default.Key())
  {
  }

  /** The gutters begin with the registry's centring class. */
  lemma GuttersCentre()
    ensures StartsWith(gutters, layout.center + " ")
  {
  }

  /** The width class, then the centring and gutters, then the caller's class without its
      trailing whitespace (nothing at all, and no trailing space, when it is blank). */
  lemma ClassShape(maxWidth: string, className: string)
    ensures ClassName(maxWidth, className) == MaxWidthClass(maxWidth) + " " + gutters + TrailingSegment(className)
  {
    var head := MaxWidthClass(maxWidth) + " " + gutters;
    assert head[0] == 'm';
    assert head[|head| - 1] == '8';
    TrimAfterHead(head, className);
  }

  /** With `maxWidth` omitted and no caller class (omitted or empty) the container is the
      widest one, centred, with the responsive gutters and nothing after them. */
  lemma Defaults(className: Option<string>)
    requires className.GetOr("") == ""
    ensures Render(Props(className, None)).className == MaxWidthClass(Default.Key()) + " " + gutters
    ensures Render(Props(className, None)).className == "max-w-7xl mx-auto px-4 sm:px-6 lg:px-8"
  {
    var c := className.GetOr("");
    ClassShape(Default.Key(), c);
    BlankTrimEnd(c);
    WidestSpelledOut();
  }

  lemma WidestSpelledOut()
    ensures MaxWidthClass(Default.Key()) + " " + gutters == "max-w-7xl mx-auto px-4 sm:px-6 lg:px-8"
  {
    var s := MaxWidthClass(Default.Key()) + " " + gutters;
    var t := "max-w-7xl mx-auto px-4 sm:px-6 lg:px-8";
    assert |s| == |t|;
    forall i | 0 <= i < |t| ensures s[i] == t[i] {
      if i < 9 {
        assert s[i] == "max-w-7xl"[i];
      } else if i > 9 {
        assert s[i] == gutters[i - 10];
      }
    }
  }
}
