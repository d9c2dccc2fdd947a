# Style resolution for a portfolio site, in Dafny

This project models the style-resolution layer of a small React portfolio site and proves
properties of it. Every visual component of the site turns a few enumerated props (variant,
size, padding, background, width) and an optional caller class into one class-name string
and, where it animates, a motion descriptor. The model covers:

- `Text` — the JavaScript string operations the layer relies on, over `seq<char>`:
  - `startsWith` and `includes`, and `endsWith`, which the source never calls but the
    specifications use to say where a string ends;
  - `Array.prototype.join`;
  - `String.prototype.trim`, over the ECMAScript whitespace set;
  - a reference `split(' ')`, which reads a class string back as a list of classes and
    serves as the inverse of joining.
- `Tokens` — the design-token registry, a static nested record of class strings, and the
  class composer `cn`, which is `filter(Boolean).join(' ')`. A fragment is an
  `Option<string>`: `false` and `undefined` are `None`, and `Some("")` is falsy as in
  JavaScript.
- `Button`, `Heading`, `Section`, `Container`, `NavLink` and `ProjectDetail` — the
  per-component resolvers. Each has the tables or ternary chain the component uses, its
  `combinedClassName`, and a `Render` function that applies the prop defaults and returns
  what the component hands to the DOM: element kind, class strings, link targets,
  accessible names and motion preset.
- `Seo` — the head metadata derivations:
  - the owner-suffixed title;
  - the absolutised share image;
  - the comma-joined keywords;
  - the prop defaults;
  - which tags carry which value.
- `Presets` — the animation preset catalogue, as immutable records with `real` timings.
- `Image` — the image component:
  - a class `ImageLoader` whose fields `isLoaded` and `hasError` are updated in place by
    `HandleLoad` and `HandleError`;
  - the same transitions as functions on a `LoadState` value, with `Run` replaying a
    sequence of browser events;
  - the container class, image class, padding style, `loading` attribute and error
    overlay derived from the state.

Runtime keys such as `variant` or `padding` are strings. The source compares them with
`===` or uses them to index an object literal, so a caller can pass any string. Each
declared TypeScript domain is also a datatype with a `Key()` function, so lemmas can
quantify over "every declared key".

### Behaviour worth noting

- **Fallbacks differ by component.**
  - Heading, Section and Container send any undeclared key to their default bucket
    (`Heading.UnknownVariantIsDefault`, `Section.ClassesFromTokens`,
    `Container.WidthsFromLayout`).
  - Button has no default bucket. An undeclared `variant` or `size` indexes to `undefined`,
    which `cn` drops, so the class string simply lacks that part (`Button.UnknownVariantDropped`,
    `Button.UnknownSizeDropped`). It is not the default variant's string (`Button.NoDefaultVariant`).
- **`cn` is order-sensitive only for single-class fragments.** Swapping two distinct
  single-class fragments changes the result (`Tokens.CnOrderMatters`). Fragments that contain
  spaces can commute: `cn("x", "x x") == cn("x x", "x")` (`Tokens.CnOrderCounterexample`).
- **Two display styles.** Heading's `display` variant is `text-display font-cursive`. That is
  not the registry's `typography.display` (`text-display font-bold`), which the project
  card title uses (`Heading.VariantsAgainstTypography`, `ProjectDetail.TitleIsBoldDisplay`).
- **`fadeUp` starts above.** The comment at src/design-system/animations/presets.ts:40-41 calls
  `fadeUp` a fade up "from below". Its code starts at `y: -20`, which is above the resting
  position. The model follows the code (`Presets.EntriesSettle` proves
  `fadeUp.initial.y < 0`).

## Model

| member | source | states |
|---|---|---|
| Tokens.ResponsiveSpacingExtendsBase | src/design-system/constants/tokens.ts:45-78 | each responsive margin and gap token is its non-responsive token followed by a space and a breakpoint override |
| Tokens.TransitionsLast200ms | src/design-system/constants/tokens.ts:115-120 | every transition token contains `duration-200` |
| Tokens.FocusUsesInteractiveColour | src/design-system/constants/tokens.ts:170-173 | `focus.default` ends with a space and `colors.interactive.focus` (declared at line 35) |
| Tokens.Kept | src/design-system/constants/tokens.ts:179 | `filter(Boolean)` keeps no more items than it is given, and none of them is empty |
| Tokens.KeptAppend | src/design-system/constants/tokens.ts:179 | filtering a concatenation is concatenating the filtered parts |
| Tokens.KeptEmpty | src/design-system/constants/tokens.ts:179 | nothing survives the filter exactly when no fragment is truthy |
| Tokens.KeptFrom | src/design-system/constants/tokens.ts:179 | every kept string is one of the input fragments |
| Tokens.CnEmpty | src/design-system/constants/tokens.ts:178-180 | `cn` returns `""` exactly when every fragment is falsy, so `cn()` is `""` |
| Tokens.CnAppend | src/design-system/constants/tokens.ts:178-180 | `cn` of two concatenated fragment lists is the two results joined by exactly one space when both are non-empty, and the non-empty one otherwise |
| Tokens.CnSingle | src/design-system/constants/tokens.ts:178-180 | `cn(s) == s` for a non-empty `s` |
| Tokens.CnOne | src/design-system/constants/tokens.ts:178-180 | one fragment composes to itself when truthy and to `""` otherwise |
| Tokens.CnSnoc | src/design-system/constants/tokens.ts:178-180 | appending a falsy fragment changes nothing; a truthy one becomes the last space-separated segment |
| Tokens.CnSnocClass | src/design-system/constants/tokens.ts:178-180 | a caller class appended after a non-empty composition adds `" " + c`, or nothing when it is empty |
| Tokens.CnCons | src/design-system/constants/tokens.ts:178-180 | a non-empty first fragment heads the result, and the rest follows after one space |
| Tokens.CnDropsFalsy | src/design-system/constants/tokens.ts:179 | a falsy fragment anywhere in the list can be removed without changing the result |
| Tokens.CnDropsFalsyExample | src/design-system/constants/tokens.ts:179 | `cn("a", false, undefined, "", "b") == cn("a", "b") == "a b"` |
| Tokens.CnFlatten | src/design-system/constants/tokens.ts:178-180 | nesting a `cn` call inside another flattens, with an empty inner result dropped |
| Tokens.CnFlattenThree | src/design-system/constants/tokens.ts:178-180 | `cn(a, cn(b, c)) == cn(a, b, c)` |
| Tokens.CnKeepsDuplicates | src/design-system/constants/tokens.ts:179 | no de-duplication: `cn("x", "x") == "x x"` |
| Tokens.CnOrderMatters | src/design-system/constants/tokens.ts:178-180 | for distinct single-class fragments, swapping them changes the result |
| Tokens.CnOrderCounterexample | src/design-system/constants/tokens.ts:178-180 | fragments that contain spaces can commute: `cn("x", "x x") == cn("x x", "x")` |
| Tokens.CnTokens | src/design-system/constants/tokens.ts:178-180 | when some fragment is truthy and none contains a space, splitting the result on spaces gives back exactly the kept fragments, in input order |
| Tokens.CnPresent | src/design-system/constants/tokens.ts:178-180 | a fixed list of non-empty class strings composes to their plain space join |
| Tokens.CnSpacedSnoc | src/design-system/constants/tokens.ts:178-180 | seen after a non-empty head, appending a fragment appends its text after a space, or nothing |
| Tokens.CnAfterHead2 | src/design-system/constants/tokens.ts:178-180 | a non-empty head and two fragments give the head followed by each present fragment after a space |
| Tokens.CnAfterHead3 | src/design-system/constants/tokens.ts:178-180 | the same for a head and three fragments |
| Text.JoinAppend | src/design-system/constants/tokens.ts:179 | joining two lists is joining their joins, with one separator exactly when both are non-empty |
| Text.JoinMiddle | src/design-system/constants/tokens.ts:179 | a part inside a list appears in the join between the joins of its neighbours, with separators only where they have parts |
| Text.JoinContains | src/components/SEO/index.tsx:43 | every part occurs in the joined string |
| Text.JoinEmpty | src/design-system/constants/tokens.ts:179 | a join of non-empty parts is empty exactly when there are no parts |
| Text.JoinPrefix | src/design-system/constants/tokens.ts:179 | the join of a list starts with the join of any proper non-empty prefix and a separator |
| Text.SplitJoin | src/design-system/constants/tokens.ts:179 | splitting on a space undoes joining with a space when no part contains a space |
| Text.SplitSpaceAt | src/design-system/constants/tokens.ts:179 | splitting `a + " " + b` splits `a` and `b` independently and concatenates the results |
| Text.TrimStart | src/components/ui/Heading/index.tsx:27 | `trimStart` returns a suffix of its input; everything it removed is whitespace, and the result does not start with whitespace |
| Text.TrimEnd | src/components/ui/Heading/index.tsx:27 | `trimEnd` returns a prefix of its input; everything it removed is whitespace, and the result does not end with whitespace |
| Text.TrimShape | src/components/ui/Heading/index.tsx:27 | `trim` leaves a piece of its input that has no whitespace at either end |
| Text.TrimOfTrimmed | src/components/ui/Heading/index.tsx:27 | a string with no outer whitespace is its own trim |
| Text.TrimIdempotent | src/components/ui/Heading/index.tsx:27 | trimming twice is trimming once |
| Text.TrimEndAppend | src/components/ui/Section/index.tsx:21 | `trimEnd` of `a + b` is `a` followed by `trimEnd(b)`, except that when `b` is blank it is `trimEnd(a)` |
| Text.BlankTrimEnd | src/components/ui/Section/index.tsx:21 | a blank caller class trims away entirely |
| Text.TrimAfterHead | src/components/ui/Section/index.tsx:21 | `${a} ${b}`.trim(), for a fixed non-empty head with no outer whitespace, is the head followed by a space and `b` without its trailing whitespace, or by nothing when `b` is blank |
| Presets.DurationsIncrease | src/design-system/animations/presets.ts:13-18 | 0 < fast < normal < slow < slower |
| Presets.DelaysIncrease | src/design-system/animations/presets.ts:23-28 | none is 0, and none < short < medium < long |
| Presets.EntryTimings | src/design-system/animations/presets.ts:34-69 | `pageEntry` uses `durations.normal`; `fadeUp` uses `slow` and `short`; `scaleIn` uses `slow` and `medium`; `fadeInView` uses `slow` |
| Presets.EntriesFadeIn | src/design-system/animations/presets.ts:34-106 | every entry, reveal and stagger preset goes from opacity 0 to opacity 1 |
| Presets.EntriesSettle | src/design-system/animations/presets.ts:44-69 | entry presets end at offset 0 and scale 1; `fadeUp` starts above and `fadeInView` below |
| Presets.RevealOnce | src/design-system/animations/presets.ts:54-59 | `fadeInView` is triggered by the viewport once; the other entries run on mount |
| Presets.ScalesOrdered | src/design-system/animations/presets.ts:75-87 | 1 < small < medium < large hover scales, and 0 < tap scale < 1 |
| Presets.CompositesReuseScales | src/design-system/animations/presets.ts:112-130 | `navLink` is the medium hover scale with the tap scale, `iconButton` the large one with the tap scale, and `cardHover` only the small hover scale with no tap |
| Button.TablesCoverDomains | src/design-system/components/Button.tsx:34-47 | every declared variant and size has a non-empty entry |
| Button.VariantTableCovers | src/design-system/components/Button.tsx:34-40 | every declared variant has a non-empty entry |
| Button.SizeTableCovers | src/design-system/components/Button.tsx:43-47 | every declared size has a non-empty entry, whatever the variant |
| Button.ClassShape | src/design-system/components/Button.tsx:49-54 | the base styles, then the variant entry, then the size entry, then the caller's class, each after one space, with any missing or empty piece adding nothing |
| Button.OverrideComesLast | src/design-system/components/Button.tsx:49-54 | the caller's class is appended last, after everything the tables contribute |
| Button.StartsWithBase | src/design-system/components/Button.tsx:30-54 | the result always begins with the base styles |
| Button.DeclaredOrder | src/design-system/components/Button.tsx:49-54 | for declared keys, the result is base, variant entry, size entry and a non-empty caller class, separated by single spaces, with no trailing space when the caller's class is empty |
| Button.SizeBuckets | src/design-system/components/Button.tsx:43-47 | the icon variant's sizes are `w-10 h-10`, `w-12 h-12` and `w-14 h-14`; every other variant gets the padding buckets |
| Button.UnknownVariantDropped | src/design-system/components/Button.tsx:49-54 | an undeclared variant contributes nothing: the result is base, size entry and caller class |
| Button.NoDefaultVariant | src/design-system/components/Button.tsx:34-54 | an undeclared variant does not resolve to the primary variant's classes |
| Button.UnknownSizeDropped | src/design-system/components/Button.tsx:49-54 | an undeclared size contributes nothing: the result is base, variant entry and caller class |
| Button.DefaultsRender | src/design-system/components/Button.tsx:18-76 | with every prop omitted the element is an enabled native button of type `button`, with the primary medium classes and the tap preset |
| Button.DefaultsPrimaryMedium | src/design-system/components/Button.tsx:19-54 | with the default variant and size, `bg-primary` occurs before `px-6 py-3 text-base` |
| Button.RenderChoosesElement | src/design-system/components/Button.tsx:49-76 | the anchor is chosen exactly when `asLink` is set and `href` is non-empty; otherwise the button carries `type` and `disabled`; the class string depends only on variant, size and class |
| Heading.VariantsAgainstTypography | src/components/ui/Heading/index.tsx:18-25 | `hero` and `section` are the registry's tokens; `display` is `text-display font-cursive`, which differs from `typography.display` |
| Heading.UnknownVariantIsDefault | src/components/ui/Heading/index.tsx:18-25 | any other variant gives the empty class and the same result as `default` |
| Heading.VariantClassTrimmed | src/components/ui/Heading/index.tsx:18-25 | every variant class has no outer whitespace |
| Heading.ClassShape | src/components/ui/Heading/index.tsx:27 | the result is the caller's class trimmed when the variant class is empty; otherwise it is the variant class, then a space and the caller's class without its trailing whitespace (its leading whitespace survives), or nothing when that class is blank |
| Heading.NoOverrideIsVariantClass | src/components/ui/Heading/index.tsx:11-27 | with the default empty caller class, the result is exactly the variant class |
| Heading.DefaultVariantTrimsOverride | src/components/ui/Heading/index.tsx:12-27 | with the default variant, the result is the caller's class trimmed |
| Heading.TagShape | src/components/ui/Heading/index.tsx:16 | the tag is `h` and the level digit (`h1` to `h6`), and distinct levels give distinct tags |
| Heading.RenderSeparatesConcerns | src/components/ui/Heading/index.tsx:8-47 | level and `animate` never change the class string; the tag defaults to `h1`; `animate` only adds a wrapper whose motion equals the `fadeUp` preset |
| Section.ClassesFromTokens | src/components/ui/Section/index.tsx:17-19 | `primary` gives `colors.bg.primary` and anything else `colors.bg.white`; `large` gives `spacing.section.yLarge`, `small` gives `py-4`, and anything else gives the default `spacing.section.y` |
| Section.HeadTrimmed | src/components/ui/Section/index.tsx:17-21 | the background and padding pair has no outer whitespace |
| Section.ClassShape | src/components/ui/Section/index.tsx:21 | background first, padding second, then a space and the caller's class without its trailing whitespace, or nothing and no trailing space when that class is blank |
| Section.Defaults | src/components/ui/Section/index.tsx:8-21 | with every prop omitted the section is plain, white and has the default padding |
| Section.BlankOverrideDropped | src/components/ui/Section/index.tsx:21 | a blank caller class leaves exactly the background and padding classes |
| Section.AnimateOnlyPicksElement | src/components/ui/Section/index.tsx:23-43 | `animate` never changes the class string; it only selects the motion element, whose reveal is `fadeInView` with a 20px offset |
| Container.WidthsFromLayout | src/components/ui/Container/index.tsx:8-15 | the widths are `layout.container.sm/md/lg`, and `default` or any other value gets `layout.container.xl` |
| Container.GuttersCentre | src/components/ui/Container/index.tsx:17 | the gutters begin with the registry's centring class |
| Container.ClassShape | src/components/ui/Container/index.tsx:17 | the width class, then `mx-auto px-4 sm:px-6 lg:px-8` right after it, then a space and the caller's class without its trailing whitespace, or nothing and no trailing space when that class is blank |
| Container.Defaults | src/components/ui/Container/index.tsx:7-17 | with `maxWidth` omitted and no caller class, whether omitted or empty, the class string is exactly `max-w-7xl mx-auto px-4 sm:px-6 lg:px-8`: the widest width, then the gutters, with no trailing space |
| Container.WidestSpelledOut | src/components/ui/Container/index.tsx:15-17 | the default width class followed by the gutters spells `max-w-7xl mx-auto px-4 sm:px-6 lg:px-8` |
| NavLink.FixedNonEmpty | src/design-system/components/NavLink.tsx:15-22 | every fixed fragment is non-empty, so none is dropped |
| NavLink.ClassShape | src/design-system/components/NavLink.tsx:15-24 | the fixed fragments are joined in their listed order, then the caller's class follows after a space when it is non-empty |
| NavLink.OpensWithColours | src/design-system/components/NavLink.tsx:15-18 | the result begins with the secondary text colour, the hover colour and the colour transition, in that order |
| NavLink.AlwaysResponsiveAndPlain | src/design-system/components/NavLink.tsx:15-24 | `md:text-lg` and `no-underline` are always present |
| NavLink.OverrideLast | src/design-system/components/NavLink.tsx:14-24 | a non-empty caller class is the final segment; an empty one adds nothing |
| NavLink.ClassIgnoresTarget | src/design-system/components/NavLink.tsx:14-32 | the class string does not depend on `to`; the wrapper uses the `navLink` preset |
| ProjectDetail.DeclaredTints | src/components/features/ProjectDetail/index.tsx:6-12 | the five declared colour names, each mapped to its listed tint |
| ProjectDetail.TintsTruthy | src/components/features/ProjectDetail/index.tsx:15 | a declared name gets its map entry, and any other name gets `bg-gray-100` |
| ProjectDetail.TintRange | src/components/features/ProjectDetail/index.tsx:6-15 | the result is one of the four tints or the fallback, and it is the fallback exactly for undeclared names |
| ProjectDetail.TintsNotInjective | src/components/features/ProjectDetail/index.tsx:8-10 | `goldenrod` and `rgba(242, 255, 0, 0.838)` share the gold tint |
| ProjectDetail.ArticleClassShape | src/components/features/ProjectDetail/index.tsx:19 | the article class is the tint, a space, then `spacing.section.yLarge` |
| ProjectDetail.SourceUrlRoundTrip | src/components/features/ProjectDetail/index.tsx:29 | the source link starts with `https://github.com/`, and the project id can be read back from it |
| ProjectDetail.ArticleLabelRoundTrip | src/components/features/ProjectDetail/index.tsx:24 | the article label starts with `Project: `, and the title can be read back from it |
| ProjectDetail.LinkLabelsNameProject | src/components/features/ProjectDetail/index.tsx:37-61 | both link labels contain the project title |
| ProjectDetail.TitleIsBoldDisplay | src/components/features/ProjectDetail/index.tsx:41 | the card title is `typography.display` followed by the small responsive margin, which differs from Heading's display class |
| ProjectDetail.RenderDependsOnlyOn | src/components/features/ProjectDetail/index.tsx:14-66 | the inner class strings are the same for every project; the article class depends only on `bgColor`; the links use `cardHover`, which has no tap |
| Seo.SuffixNamesOwner | src/components/SEO/index.tsx:33 | the suffixed title contains the owner's name right after the separator that follows the title |
| Seo.FullTitleNamesOwner | src/components/SEO/index.tsx:33 | the full title always contains the owner's name |
| Seo.FullTitleUnchangedIff | src/components/SEO/index.tsx:33 | the title is unchanged exactly when it already names the owner; otherwise the title is kept as the prefix and the owner suffix is appended |
| Seo.FullTitleIdempotent | src/components/SEO/index.tsx:33 | applying the title rule twice gives the same result as once |
| Seo.FullImageUrlUnchangedIff | src/components/SEO/index.tsx:34 | the image is unchanged exactly when it starts with `http` or the URL is empty; otherwise the result ends with the image after the URL |
| Seo.FullImageUrlIdempotent | src/components/SEO/index.tsx:34 | with a site URL that starts with `http`, the result starts with `http`, and resolving it again changes nothing |
| Seo.DefaultUrlAbsolute | src/components/SEO/index.tsx:19 | the default URL starts with `http` |
| Seo.DefaultTitleNamesOwner | src/components/SEO/index.tsx:16 | the default title already names the owner |
| Seo.Defaults | src/components/SEO/index.tsx:15-46 | with every prop omitted, the title is the default title unchanged, the image is `https://taherabouzeid.com/assets/img/me.jpg`, there is no robots tag, and the keywords are the default list joined |
| Seo.KeywordsJoin | src/components/SEO/index.tsx:43 | every keyword occurs in the content, and one more keyword is appended after `, ` |
| Seo.HeadConsistent | src/components/SEO/index.tsx:33-65 | the robots tag is present exactly when `noIndex` is set; the page, Open Graph and Twitter titles agree and name the owner; both share images agree; all three URLs agree |
| Image.ImageLoader.constructor | src/design-system/components/Image.tsx:23-24 | both flags start false |
| Image.ImageLoader.HandleLoad | src/design-system/components/Image.tsx:26-28 | sets `isLoaded` and keeps `hasError`; no flag is reset, and consistency is kept |
| Image.ImageLoader.HandleError | src/design-system/components/Image.tsx:30-33 | sets `hasError` and `isLoaded`; no flag is reset; `hasError` implies `isLoaded` afterwards |
| Image.HandlersKeepConsistent | src/design-system/components/Image.tsx:23-33 | the initial state is consistent, load keeps consistency, and error establishes it |
| Image.ReachableConsistent | src/design-system/components/Image.tsx:23-33 | in every state reachable by any sequence of events, `hasError` implies `isLoaded` |
| Image.FlagsRecordHistory | src/design-system/components/Image.tsx:23-33 | `isLoaded` holds exactly when some event has happened, and `hasError` exactly when an error has |
| Image.Monotone | src/design-system/components/Image.tsx:26-33 | later states keep every flag an earlier state set |
| Image.ReachableStates | src/design-system/components/Image.tsx:23-33 | only pending, loaded and failed are reachable, and each is reached |
| Image.ErrorIsFinal | src/design-system/components/Image.tsx:26-33 | after an error no event changes the state, and a repeated load changes nothing |
| Image.FrameTokens | src/design-system/components/Image.tsx:36 | the frame is the classes `relative` and `overflow-hidden` |
| Image.PulseTokens | src/design-system/components/Image.tsx:37 | the placeholder is the classes `bg-gray-200` and `animate-pulse` |
| Image.FadeTokens | src/design-system/components/Image.tsx:42 | the fade is the classes `transition-opacity` and `duration-300` |
| Image.ContainerShape | src/design-system/components/Image.tsx:35-39 | the frame, then the placeholder only while loading, then the caller's class when it is non-empty |
| Image.HeadTokens | src/design-system/components/Image.tsx:36-37 | the frame and, while loading, the placeholder read as the frame's two classes followed by the placeholder's two |
| Image.ContainerTokens | src/design-system/components/Image.tsx:35-39 | as a class list: the frame's two classes, the placeholder's two while loading, then the caller's classes |
| Image.PulseIffLoading | src/design-system/components/Image.tsx:35-39 | `animate-pulse` is among the container's classes exactly while loading, unless the caller's class supplies it |
| Image.ContainerOverrideLast | src/design-system/components/Image.tsx:35-39 | a non-empty caller class is the container's final segment |
| Image.ImageShape | src/design-system/components/Image.tsx:41-44 | the image class is the fade, a space, then the opacity for the state |
| Image.OpacityWord | src/design-system/components/Image.tsx:43 | each opacity class is a single class |
| Image.ImageClassDistinct | src/design-system/components/Image.tsx:41-44 | loaded and loading give different image classes |
| Image.ImageTokens | src/design-system/components/Image.tsx:41-44 | as a class list: `transition-opacity`, `duration-300`, then `opacity-100` when loaded or `opacity-0` before |
| Image.RenderFollowsState | src/design-system/components/Image.tsx:47-66 | the error overlay is shown exactly after an error; `loading` is `eager` exactly when the prop is set; the padding style is there exactly for a non-empty aspect ratio; while the overlay is shown, the image is opaque and the placeholder is gone |

## Left out

- Prototype-inherited keys are not modelled. Indexing `variantStyles`, `sizeStyles` or `bgColorMap` with a name such as `toString` or `constructor` finds a function in JavaScript; the model treats each object literal as a plain map of its declared keys.
- The framer-motion runtime is not modelled: spring physics, viewport observation, `viewport.margin`, and the links' inline spring transition. Presets are data only.
- The ProjectDetail article's own reveal is not modelled: its initial and in-view poses, and its delay `index * 0.1`, a floating-point product.
- Which of two conflicting utility classes wins in the browser is not modelled: the CSS cascade is environment-defined and outside this code.
- The document head injection by Helmet is not modelled. The three fixed tags (theme colour, content type, viewport) are left out of `Seo.Head`: they carry no derived value.
- Pass-through props and fixed markup are not modelled:
  - `children`, `onClick` and `...props`;
  - Image's `width`, `height` and `decoding`;
  - ProjectDetail's wrapper `div`s, image alt text, image classes and inline box shadows.
- The registry's `shadows`, `radius.*` (other than `radius.lg`) and `layout.flex` are modelled as data but have no separate property: no core component derives anything from them.
- Tokens.CnOrderMatters: requires single-class fragments, because the unrestricted claim is false for fragments containing spaces (`Tokens.CnOrderCounterexample`).
- Heading.TagShape: `level` is the TypeScript-declared `1 | 2 | 3 | 4 | 5 | 6`, a subset type here, so tags for other numbers are not modelled.
