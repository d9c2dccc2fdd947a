/** The design-token registry (static class strings grouped by intent) and the class
    composer `cn` that every styled component uses to merge fragments. */
module Tokens {
  import opened Text

  // ---------------------------------------------------------------------------
  // Registry shapes, one record per nested object literal

  datatype TextColors = TextColors(primary: string, secondary: string, tertiary: string, muted: string, inverse: string)
  datatype BgColors = BgColors(primary: string, white: string, gray: string, dark: string)
  datatype InteractiveColors = InteractiveColors(default: string, hover: string, active: string, focus: string)
  datatype Colors = Colors(text: TextColors, bg: BgColors, interactive: InteractiveColors)

  datatype Steps = Steps(small: string, medium: string, large: string)
  datatype MarginSteps = MarginSteps(small: string, medium: string, large: string, responsive: Steps)
  datatype TwoSteps = TwoSteps(small: string, medium: string)
  datatype GapSteps = GapSteps(small: string, medium: string, large: string, responsive: TwoSteps)
  datatype SectionSpacing = SectionSpacing(y: string, yLarge: string)
  datatype Spacing = Spacing(mb: MarginSteps, p: Steps, section: SectionSpacing, gap: GapSteps)

  datatype Weights = Weights(normal: string, medium: string, bold: string)
  datatype Alignments = Alignments(left: string, center: string, right: string)
  datatype Typography = Typography(
    hero: string, display: string, sectionTitle: string,
    bodyLarge: string, body: string, small: string,
    weight: Weights, align: Alignments)

  datatype Transitions = Transitions(colors: string, all: string, transform: string, opacity: string)
  datatype Shadows = Shadows(sm: string, md: string, lg: string, xl: string)
  datatype Radius = Radius(sm: string, md: string, lg: string, xl: string, full: string)
  datatype ContainerWidths = ContainerWidths(sm: string, md: string, lg: string, xl: string)
  datatype FlexLayouts = FlexLayouts(center: string, between: string, column: string, row: string)
  datatype Layout = Layout(container: ContainerWidths, center: string, flex: FlexLayouts)
  datatype Focus = Focus(default: string, ring: string)

  // ---------------------------------------------------------------------------
  // The registry

  const colors: Colors := Colors(
    TextColors("text-gray-900", "text-gray-800", "text-gray-600", "text-gray-500", "text-white"),
    BgColors("bg-primary-light", "bg-white", "bg-gray-50", "bg-gray-900"),
    InteractiveColors("text-gray-800", "hover:text-gray-600", "active:text-gray-900", "focus-visible:outline-gray-900"))

  const spacing: Spacing := Spacing(
    MarginSteps("mb-4", "mb-6", "mb-8", Steps("mb-4 md:mb-6", "mb-6 md:mb-8", "mb-8 md:mb-12")),
    Steps("p-4", "p-6", "p-8"),
    SectionSpacing("py-section-y", "py-section-y-lg"),
    GapSteps("gap-4", "gap-6", "gap-8", TwoSteps("gap-4 sm:gap-6", "gap-6 sm:gap-8")))

  const typography: Typography := Typography(
    "text-hero font-cursive", "text-display font-bold", "text-section-title font-medium",
    "text-body-lg", "text-base", "text-sm",
    Weights("font-normal", "font-medium", "font-bold"),
    Alignments("text-left", "text-center", "text-right"))

  const transitions: Transitions := Transitions(
    "transition-colors duration-200", "transition-all duration-200",
    "transition-transform duration-200", "transition-opacity duration-200")

  const shadows: Shadows := Shadows("shadow-sm", "shadow-md", "shadow-lg", "shadow-xl")

  const radius: Radius := Radius("rounded-sm", "rounded-md", "rounded-lg", "rounded-xl", "rounded-full")

  const layout: Layout := Layout(
    ContainerWidths("max-w-2xl", "max-w-4xl", "max-w-6xl", "max-w-7xl"),
    "mx-auto",
    FlexLayouts("flex items-center justify-center", "flex items-center justify-between", "flex flex-col", "flex flex-row"))

  const focus: Focus := Focus(
    "focus-visible:outline-2 focus-visible:outline-offset-2 focus-visible:outline-gray-900",
    "focus-visible:ring-2 focus-visible:ring-offset-2 focus-visible:ring-gray-900")

  /** Each responsive spacing token is its base token followed by a breakpoint override. */
  lemma ResponsiveSpacingExtendsBase()
    ensures StartsWith(spacing.mb.responsive.small, spacing.mb.small + " ")
    ensures StartsWith(spacing.mb.responsive.medium, spacing.mb.medium + " ")
    ensures StartsWith(spacing.mb.responsive.large, spacing.mb.large + " ")
    ensures StartsWith(spacing.gap.responsive.small, spacing.gap.small + " ")
    ensures StartsWith(spacing.gap.responsive.medium, spacing.gap.medium + " ")
  {
  }

  /** Every transition token runs for 200ms. */
  lemma TransitionsLast200ms()
    ensures Contains(transitions.colors, "duration-200")
    ensures Contains(transitions.all, "duration-200")
    ensures Contains(transitions.transform, "duration-200")
    ensures Contains(transitions.opacity, "duration-200")
  {
    EndsWithContains(transitions.colors, "duration-200");
    EndsWithContains(transitions.all, "duration-200");
    EndsWithContains(transitions.transform, "duration-200");
    EndsWithContains(transitions.opacity, "duration-200");
  }

  /** The default focus ring ends in the interactive focus colour. */
  lemma FocusUsesInteractiveColour()
    ensures EndsWith(focus.default, " " + colors.interactive.focus)
  {
    var d := "focus-visible:outline-2 focus-visible:outline-offset-2 focus-visible:outline-gray-900";
    assert focus.default == d;
    var c := "focus-visible:outline-gray-900";
    assert colors.interactive.focus == c;
    EndsWithAt(d, " " + c, 54);
  }

  // ---------------------------------------------------------------------------
  // cn(...classes) = classes.filter(Boolean).join(' ')

  /** A fragment survives `filter(Boolean)`: it is present and not the empty string
      (`false` and `undefined` are both `None`). */
  predicate Truthy(f: Option<string>) {
    f.Some? && f.value != ""
  }

  /** `filter(Boolean)` */
  function Kept(fs: seq<Option<string>>): (r: seq<string>)
    ensures |r| <= |fs|
    ensures forall k :: 0 <= k < |r| ==> r[k] != ""
    decreases |fs|
  {
    if fs == [] then []
    else (if Truthy(fs[0]) then [fs[0].value] else []) + Kept(fs[1..])
  }

  /** The class composer. */
  function Cn(fs: seq<Option<string>>): string {
    Join(Kept(fs), " ")
  }

  /** `" " + s` unless `s` is empty: how a further segment is attached after a non-empty head. */
  function Spaced(s: string): string {
    if s == "" then "" else " " + s
  }

  lemma {:induction false} KeptAppend(xs: seq<Option<string>>, ys: seq<Option<string>>)
    ensures Kept(xs + ys) == Kept(xs) + Kept(ys)
    decreases |xs|
  {
    if xs != [] {
      assert (xs + ys)[1..] == xs[1..] + ys;
      KeptAppend(xs[1..], ys);
    } else {
      assert xs + ys == ys;
    }
  }

  /** Nothing survives the filter exactly when no fragment is truthy. */
  lemma {:induction false} KeptEmpty(fs: seq<Option<string>>)
    ensures Kept(fs) == [] <==> forall k :: 0 <= k < |fs| ==> !Truthy(fs[k])
    decreases |fs|
  {
    if fs != [] {
      KeptEmpty(fs[1..]);
      assert forall k :: 1 <= k < |fs| ==> fs[k] == fs[1..][k - 1];
    }
  }

  /** The composed string is empty exactly when every fragment is falsy; `cn()` is `""`. */
  lemma CnEmpty(fs: seq<Option<string>>)
    ensures Cn(fs) == "" <==> forall k :: 0 <= k < |fs| ==> !Truthy(fs[k])
  {
    KeptEmpty(fs);
    JoinEmpty(Kept(fs), " ");
  }

  /** Composing two fragment lists: the two compositions, with one space between them
      when both are non-empty. With `Cn([])` this determines `Cn` completely. */
  lemma CnAppend(xs: seq<Option<string>>, ys: seq<Option<string>>)
    ensures Cn(xs + ys) ==
      if Cn(xs) == "" then Cn(ys)
      else if Cn(ys) == "" then Cn(xs)
      else Cn(xs) + " " + Cn(ys)
  {
    KeptAppend(xs, ys);
    JoinAppend(Kept(xs), Kept(ys), " ");
    JoinEmpty(Kept(xs), " ");
    JoinEmpty(Kept(ys), " ");
  }

  /** A single non-empty class string is returned as it is. */
  lemma CnSingle(s: string)
    requires s != ""
    ensures Cn([Some(s)]) == s
  {
    assert [Some(s)][1..] == [];
  }

  /** A single fragment composes to itself when truthy and to `""` otherwise. */
  lemma CnOne(f: Option<string>)
    ensures Cn([f]) == if Truthy(f) then f.value else ""
  {
    assert [f][1..] == [];
  }

  /** Appending one fragment: dropped when falsy, otherwise the new last segment. */
  lemma CnSnoc(fs: seq<Option<string>>, f: Option<string>)
    ensures Cn(fs + [f]) ==
      if !Truthy(f) then Cn(fs)
      else if Cn(fs) == "" then f.value
      else Cn(fs) + " " + f.value
  {
    CnAppend(fs, [f]);
    CnOne(f);
  }

  /** Appending the caller's class string after a non-empty composition. */
  lemma CnSnocClass(fs: seq<Option<string>>, c: string)
    requires Cn(fs) != ""
    ensures Cn(fs + [Some(c)]) == Cn(fs) + Spaced(c)
  {
    CnSnoc(fs, Some(c));
  }

  /** A non-empty first fragment heads the result. */
  lemma CnCons(s: string, fs: seq<Option<string>>)
    requires s != ""
    ensures Cn([Some(s)] + fs) == s + Spaced(Cn(fs))
  {
    CnAppend([Some(s)], fs);
    CnSingle(s);
  }

  /** `false`, `undefined` and `''` are dropped wherever they stand. */
  lemma CnDropsFalsy(xs: seq<Option<string>>, f: Option<string>, ys: seq<Option<string>>)
    requires !Truthy(f)
    ensures Cn(xs + [f] + ys) == Cn(xs + ys)
  {
    KeptAppend(xs + [f], ys);
    KeptAppend(xs, [f]);
    KeptAppend(xs, ys);
    assert [f][1..] == [];
    assert Kept([f]) == [];
    assert Kept(xs) + [] == Kept(xs);
  }

  /** `cn("a", false, undefined, "", "b") == cn("a", "b") == "a b"` */
  lemma CnDropsFalsyExample()
    ensures Cn([Some("a"), None, None, Some(""), Some("b")]) == Cn([Some("a"), Some("b")]) == "a b"
  {
    var a, b := [Some("a")], [Some("b")];
    CnDropsFalsy(a, None, [None, Some("")] + b);
    assert [Some("a"), None, None, Some(""), Some("b")] == a + [None] + ([None, Some("")] + b);
    CnDropsFalsy(a, None, [Some("")] + b);
    assert a + ([None, Some("")] + b) == a + [None] + ([Some("")] + b);
    CnDropsFalsy(a, Some(""), b);
    assert a + ([Some("")] + b) == a + [Some("")] + b;
    CnCons("a", b);
    CnSingle("b");
  }

  /** Nesting a composition flattens: an empty inner result is dropped like any falsy fragment. */
  lemma CnFlatten(xs: seq<Option<string>>, ys: seq<Option<string>>, zs: seq<Option<string>>)
    ensures Cn(xs + [Some(Cn(ys))] + zs) == Cn(xs + ys + zs)
  {
    var inner := [Some(Cn(ys))];
    CnAppend(xs + inner, zs);
    CnAppend(xs, inner);
    CnOne(Some(Cn(ys)));
    CnAppend(xs + ys, zs);
    CnAppend(xs, ys);
  }

  /** `cn(a, cn(b, c)) == cn(a, b, c)` */
  lemma CnFlattenThree(a: Option<string>, b: Option<string>, c: Option<string>)
    ensures Cn([a, Some(Cn([b, c]))]) == Cn([a, b, c])
  {
    CnFlatten([a], [b, c], []);
    assert [a] + [Some(Cn([b, c]))] + [] == [a, Some(Cn([b, c]))];
    assert [a] + [b, c] + [] == [a, b, c];
  }

  /** No de-duplication: `cn("x", "x") == "x x"`. */
  lemma CnKeepsDuplicates()
    ensures Cn([Some("x"), Some("x")]) == "x x"
  {
    CnCons("x", [Some("x")]);
    CnSingle("x");
  }

  /** Order matters: swapping two distinct single-class fragments changes the result. */
  lemma CnOrderMatters(a: string, b: string)
    requires a != "" && b != "" && a != b
    requires ' ' !in a && ' ' !in b
    ensures Cn([Some(a), Some(b)]) != Cn([Some(b), Some(a)])
  {
    CnCons(a, [Some(b)]);
    CnCons(b, [Some(a)]);
    CnSingle(a);
    CnSingle(b);
    if |a| < |b| {
      assert (a + " " + b)[|a|] == ' ';
      assert (b + " " + a)[|a|] == b[|a|];
    } else if |b| < |a| {
      assert (b + " " + a)[|b|] == ' ';
      assert (a + " " + b)[|b|] == a[|b|];
    } else {
      assert (a + " " + b)[..|a|] == a;
      assert (b + " " + a)[..|a|] == b;
    }
  }

  /** ... but only for single-class fragments: fragments that hold spaces can commute. */
  lemma CnOrderCounterexample()
    ensures Cn([Some("x"), Some("x x")]) == Cn([Some("x x"), Some("x")]) == "x x x"
  {
    CnCons("x", [Some("x x")]);
    CnCons("x x", [Some("x")]);
    CnSingle("x");
    CnSingle("x x");
  }

  /** Reading the result back as a class list: when no fragment holds a space,
      `split(' ')` recovers exactly the kept fragments, in order. */
  lemma CnTokens(fs: seq<Option<string>>)
    requires exists k :: 0 <= k < |fs| && Truthy(fs[k])
    requires forall k :: 0 <= k < |fs| && fs[k].Some? ==> ' ' !in fs[k].value
    ensures SplitSpace(Cn(fs)) == Kept(fs)
  {
    KeptEmpty(fs);
    KeptFrom(fs);
    SplitJoin(Kept(fs));
  }

  /** Every kept fragment is one of the input fragments. */
  lemma {:induction false} KeptFrom(fs: seq<Option<string>>)
    ensures forall k :: 0 <= k < |Kept(fs)| ==> Some(Kept(fs)[k]) in fs
    decreases |fs|
  {
    if fs != [] {
      KeptFrom(fs[1..]);
      var head := if Truthy(fs[0]) then [fs[0].value] else [];
      forall k | 0 <= k < |Kept(fs)| ensures Some(Kept(fs)[k]) in fs {
        if k >= |head| {
          assert Kept(fs)[k] == Kept(fs[1..])[k - |head|];
          assert Some(Kept(fs)[k]) in fs[1..];
        }
      }
    }
  }

  /** A fixed list of class strings passed to `cn` as they are. */
  function Present(ss: seq<string>): (fs: seq<Option<string>>)
    ensures |fs| == |ss| && forall k :: 0 <= k < |ss| ==> fs[k] == Some(ss[k])
  {
    seq(|ss|, k requires 0 <= k < |ss| => Some(ss[k]))
  }

  /** All-present fragments compose to their plain join. */
  lemma {:induction false} CnPresent(ss: seq<string>)
    requires forall k :: 0 <= k < |ss| ==> ss[k] != ""
    ensures Cn(Present(ss)) == Join(ss, " ")
    decreases |ss|
  {
    if ss != [] {
      CnPresent(ss[1..]);
      assert Present(ss) == [Some(ss[0])] + Present(ss[1..]);
      CnCons(ss[0], Present(ss[1..]));
      JoinAppend([ss[0]], ss[1..], " ");
      assert [ss[0]] + ss[1..] == ss;
    }
  }

  /** The text a fragment shows: its string when present, nothing otherwise. */
  function Shown(f: Option<string>): string {
    if f.Some? then f.value else ""
  }

  /** Seen from after a non-empty head, appending a fragment appends its spaced text. */
  lemma CnSpacedSnoc(fs: seq<Option<string>>, f: Option<string>)
    ensures Spaced(Cn(fs + [f])) == Spaced(Cn(fs)) + Spaced(Shown(f))
  {
    CnSnoc(fs, f);
    if !Truthy(f) {
      assert Spaced(Shown(f)) == "";
      assert Spaced(Cn(fs)) + "" == Spaced(Cn(fs));
    } else if Cn(fs) == "" {
      assert Spaced(Cn(fs)) == "";
      assert "" + Spaced(Shown(f)) == Spaced(Shown(f));
    } else {
      assert Spaced(Cn(fs + [f])) == " " + (Cn(fs) + " " + f.value);
      assert " " + (Cn(fs) + " " + f.value) == (" " + Cn(fs)) + (" " + f.value);
    }
  }

  /** One fragment, seen from after a non-empty head. */
  lemma CnSpacedOne(f: Option<string>)
    ensures Spaced(Cn([f])) == Spaced(Shown(f))
  {
    CnOne(f);
  }

  /** A non-empty head followed by two fragments. */
  lemma CnAfterHead2(a: string, f: Option<string>, g: Option<string>)
    requires a != ""
    ensures Cn([Some(a), f, g]) == a + Spaced(Shown(f)) + Spaced(Shown(g))
  {
    var tail := [f, g];
    assert [Some(a)] + tail == [Some(a), f, g];
    CnCons(a, tail);
    assert [f] + [g] == tail;
    CnSpacedSnoc([f], g);
    CnSpacedOne(f);
    ConcatAssoc(a, Spaced(Shown(f)), Spaced(Shown(g)));
  }

  /** A non-empty head followed by three fragments. */
  lemma CnAfterHead3(a: string, f: Option<string>, g: Option<string>, h: Option<string>)
    requires a != ""
    ensures Cn([Some(a), f, g, h]) == a + Spaced(Shown(f)) + Spaced(Shown(g)) + Spaced(Shown(h))
  {
    var head := [Some(a), f, g];
    assert head + [h] == [Some(a), f, g, h];
    CnAfterHead2(a, f, g);
    var c := Cn(head);
    assert c != "";
    CnSnoc(head, h);
  }

  /** Two non-empty spaced segments after a head, regrouped. */
  lemma SpacedPair(a: string, x: string, y: string, d: string)
    requires x != "" && y != ""
    ensures a + Spaced(x) + Spaced(y) + d == a + " " + x + " " + y + d
  {
  }

  /** A missing segment after a head adds nothing. */
  lemma SpacedSkip(a: string, x: string, d: string)
    requires x != ""
    ensures a + Spaced(Shown(None)) + Spaced(x) + d == a + " " + x + d
    ensures a + Spaced(x) + Spaced(Shown(None)) + d == a + " " + x + d
  {
  }
}
