/** The animation preset catalogue: immutable motion records whose timing fields are
    taken from the shared duration and delay tables when the catalogue is built. */
module Presets {
  import opened Text

  /** Standard durations, in seconds. */
  datatype Durations = Durations(fast: real, normal: real, slow: real, slower: real)

  /** Standard delays, in seconds. */
  datatype Delays = Delays(none: real, short: real, medium: real, long: real)

  const durations: Durations := Durations(0.2, 0.5, 0.6, 0.8)
  const delays: Delays := Delays(0.0, 0.2, 0.4, 0.6)

  /** The animated properties one motion state sets; an absent one is left alone. */
  datatype Pose = Pose(opacity: Option<real>, y: Option<real>, scale: Option<real>)

  datatype Timing = Timing(duration: real, delay: Option<real>)

  /** What moves an element into its target pose: mounting it (`animate`) or scrolling it
      into view (`whileInView`, with the `viewport.once` flag). */
  datatype Trigger = OnMount | InView(once: bool)

  /** An entry or reveal preset. */
  datatype Entry = Entry(initial: Pose, target: Pose, trigger: Trigger, transition: Timing)

  /** A hover or tap target. */
  datatype Scale = Scale(scale: real)

  datatype HoverScales = HoverScales(small: Scale, medium: Scale, large: Scale)

  /** A composite interaction preset: a hover target and an optional tap target. */
  datatype Interaction = Interaction(whileHover: Scale, whileTap: Option<Scale>)

  /** A pair of named variants for a list and its items. */
  datatype Stagger = Stagger(hidden: Pose, show: Pose, staggerChildren: Option<real>)

  function Fade(opacity: real): Pose {
    Pose(Some(opacity), None, None)
  }

  function FadeAt(opacity: real, y: real): Pose {
    Pose(Some(opacity), Some(y), None)
  }

  const pageEntry: Entry :=
    Entry(Fade(0.0), Fade(1.0), OnMount, Timing(durations.normal, None))

  const fadeUp: Entry :=
    Entry(FadeAt(0.0, -20.0), FadeAt(1.0, 0.0), OnMount, Timing(durations.slow, Some(delays.short)))

  const fadeInView: Entry :=
    Entry(FadeAt(0.0, 30.0), FadeAt(1.0, 0.0), InView(true), Timing(durations.slow, None))

  const scaleIn: Entry :=
    Entry(Pose(Some(0.0), None, Some(0.9)), Pose(Some(1.0), None, Some(1.0)), OnMount,
          Timing(durations.slow, Some(delays.medium)))

  const hoverScale: HoverScales := HoverScales(Scale(1.02), Scale(1.05), Scale(1.1))

  const tapScale: Scale := Scale(0.95)

  const staggerContainer: Stagger := Stagger(Fade(0.0), Fade(1.0), Some(0.1))

  const staggerItem: Stagger := Stagger(FadeAt(0.0, 20.0), FadeAt(1.0, 0.0), None)

  const navLink: Interaction := Interaction(hoverScale.medium, Some(tapScale))

  const cardHover: Interaction := Interaction(hoverScale.small, None)

  const iconButton: Interaction := Interaction(hoverScale.large, Some(tapScale))

  /** The preset starts invisible and ends fully opaque. */
  predicate FadesIn(e: Entry) {
    e.initial.opacity == Some(0.0) && e.target.opacity == Some(1.0)
  }

  lemma DurationsIncrease()
    ensures 0.0 < durations.fast < durations.normal < durations.slow < durations.slower
  {
  }

  lemma DelaysIncrease()
    ensures 0.0 == delays.none < delays.short < delays.medium < delays.long
  {
  }

  /** Each entry preset takes its timing from the shared tables. */
  lemma EntryTimings()
    ensures pageEntry.transition == Timing(durations.normal, None)
    ensures fadeUp.transition == Timing(durations.slow, Some(delays.short))
    ensures scaleIn.transition == Timing(durations.slow, Some(delays.medium))
    ensures fadeInView.transition == Timing(durations.slow, None)
  {
  }

  /** Every entry and reveal preset goes from transparent to opaque. */
  lemma EntriesFadeIn()
    ensures FadesIn(pageEntry) && FadesIn(fadeUp) && FadesIn(fadeInView) && FadesIn(scaleIn)
    ensures staggerContainer.hidden.opacity == staggerItem.hidden.opacity == Some(0.0)
    ensures staggerContainer.show.opacity == staggerItem.show.opacity == Some(1.0)
  {
  }

  /** Entry presets settle at their natural position and size. */
  lemma EntriesSettle()
    ensures fadeUp.target.y == fadeInView.target.y == Some(0.0)
    ensures scaleIn.target.scale == Some(1.0)
    ensures fadeUp.initial.y.value < 0.0 < fadeInView.initial.y.value
  {
  }

  /** The scroll reveal runs once; the others run on mount. */
  lemma RevealOnce()
    ensures fadeInView.trigger == InView(true)
    ensures pageEntry.trigger == fadeUp.trigger == scaleIn.trigger == OnMount
  {
  }

  /** Hover enlarges, progressively; tap shrinks. */
  lemma ScalesOrdered()
    ensures 1.0 < hoverScale.small.scale < hoverScale.medium.scale < hoverScale.large.scale
    ensures 0.0 < tapScale.scale < 1.0
  {
  }

  lemma CompositesReuseScales()
    ensures navLink == Interaction(hoverScale.medium, Some(tapScale))
    ensures iconButton == Interaction(hoverScale.large, Some(tapScale))
    ensures cardHover.whileHover == hoverScale.small && cardHover.whileTap == None
    ensures cardHover.whileHover.scale < navLink.whileHover.scale < iconButton.whileHover.scale
  {
  }
}
