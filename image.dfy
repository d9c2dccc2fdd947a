/** The Image component: two flags that the load and error handlers set, and the class
    strings, style and overlay derived from them. */
module Image {
  import opened Text
  import opened Tokens

  // ---------------------------------------------------------------------------
  // The load state

  /** The component's state: `isLoaded` and `hasError`. */
  datatype LoadState = LoadState(isLoaded: bool, hasError: bool)

  /** Both flags start false. */
  const initial: LoadState := LoadState(false, false)

  /** `handleLoad`: sets `isLoaded`, keeps `hasError`. */
  function AfterLoad(s: LoadState): LoadState {
    s.(isLoaded := true)
  }

  /** `handleError`: sets `hasError`, then `isLoaded`. */
  function AfterError(s: LoadState): LoadState {
    s.(hasError := true).(isLoaded := true)
  }

  /** What the browser may report about the image. */
  datatype Event = Load | Error

  function Step(s: LoadState, e: Event): LoadState {
    match e
    case Load => AfterLoad(s)
    case Error => AfterError(s)
  }

  /** The state after the events so far, oldest first. */
  function Run(events: seq<Event>): LoadState
    decreases |events|
  {
    if events == [] then initial
    else Step(Run(events[..|events| - 1]), events[|events| - 1])
  }

  /** An error never shows without the image counting as loaded. */
  predicate Consistent(s: LoadState) {
    s.hasError ==> s.isLoaded
  }

  /** `t` keeps every flag `s` has set. */
  predicate Extends(s: LoadState, t: LoadState) {
    (s.isLoaded ==> t.isLoaded) && (s.hasError ==> t.hasError)
  }

  /** The component's flags as fields its two handlers update. */
  class ImageLoader {
    var isLoaded: bool
    var hasError: bool

    function State(): LoadState
      reads this
    {
      LoadState(isLoaded, hasError)
    }

    constructor ()
      ensures State() == initial
    {
      isLoaded := false;
      hasError := false;
    }

    method HandleLoad()
      modifies this
      ensures State() == AfterLoad(old(State()))
      ensures Extends(old(State()), State())
      ensures old(Consistent(State())) ==> Consistent(State())
    {
      isLoaded := true;
    }

    method HandleError()
      modifies this
      ensures State() == AfterError(old(State()))
      ensures Extends(old(State()), State())
      ensures Consistent(State())
    {
      hasError := true;
      isLoaded := true;
    }
  }

  // ---------------------------------------------------------------------------
  // Properties of the state machine

  /** The initial state is consistent and each handler keeps consistency. */
  lemma HandlersKeepConsistent(s: LoadState)
    ensures Consistent(initial)
    ensures Consistent(s) ==> Consistent(AfterLoad(s))
    ensures Consistent(AfterError(s))
  {
  }

  /** In every reachable state `hasError` implies `isLoaded`. */
  lemma {:induction false} ReachableConsistent(events: seq<Event>)
    ensures Consistent(Run(events))
    decreases |events|
  {
    if events != [] {
      ReachableConsistent(events[..|events| - 1]);
    }
  }

  /** The flags record the history exactly: loaded iff any event has happened, in error iff
      an error has. */
  lemma {:induction false} FlagsRecordHistory(events: seq<Event>)
    ensures Run(events).isLoaded <==> events != []
    ensures Run(events).hasError <==> Error in events
    decreases |events|
  {
    if events != [] {
      var front := events[..|events| - 1];
      FlagsRecordHistory(front);
      assert events == front + [events[|events| - 1]];
    }
  }

  /** No handler resets a flag: later states extend earlier ones. */
  lemma {:induction false} Monotone(events: seq<Event>, more: seq<Event>)
    ensures Extends(Run(events), Run(events + more))
    decreases |more|
  {
    if more == [] {
      assert events + more == events;
    } else {
      var front := more[..|more| - 1];
      Monotone(events, front);
      assert (events + more)[..|events + more| - 1] == events + front;
    }
  }

  /** Exactly three states are reachable: pending, loaded, and failed. */
  lemma ReachableStates(events: seq<Event>)
    ensures Run(events) in {LoadState(false, false), LoadState(true, false), LoadState(true, true)}
    ensures Run([]) == LoadState(false, false)
    ensures Run([Load]) == LoadState(true, false)
    ensures Run([Error]) == LoadState(true, true)
  {
    ReachableConsistent(events);
    assert [Load][..0] == [];
    assert [Error][..0] == [];
  }

  /** An error is final: nothing afterwards changes the state. */
  lemma ErrorIsFinal(s: LoadState, e: Event)
    ensures Step(AfterError(s), e) == AfterError(s)
    ensures AfterLoad(AfterLoad(s)) == AfterLoad(s)
  {
  }

  // ---------------------------------------------------------------------------
  // Derived classes and attributes

  const frame: string := "relative overflow-hidden"
  const pulse: string := "bg-gray-200 animate-pulse"
  const fade: string := "transition-opacity duration-300"

  /** `containerClassName`: the placeholder pulse only while loading, the caller's class last. */
  function ContainerClass(isLoaded: bool, className: string): string {
    Cn([Some(frame), if !isLoaded then Some(pulse) else None, Some(className)])
  }

  /** The opacity class for a state. */
  function Opacity(isLoaded: bool): string {
    if isLoaded then "opacity-100" else "opacity-0"
  }

  /** `imageClassName`: fully opaque once loaded, transparent before. */
  function ImageClass(isLoaded: bool): string {
    Cn([Some(fade), Some(Opacity(isLoaded))])
  }

  /** `aspectRatioStyle`: a bottom padding when an aspect ratio is given. */
  function PaddingBottom(aspectRatio: Option<string>): Option<string> {
    if Truthy(aspectRatio) then aspectRatio else None
  }

  /** The `loading` attribute. */
  function Loading(eager: bool): string {
    if eager then "eager" else "lazy"
  }

  /** Props as the caller passes them; `None` is an omitted prop. */
  datatype Props = Props(
    src: string, alt: string, className: Option<string>, eager: Option<bool>, aspectRatio: Option<string>)

  /** What the component renders in a given state. */
  datatype Rendered = Rendered(
    containerClass: string, paddingBottom: Option<string>,
    src: string, alt: string, imageClass: string, loading: string,
    errorOverlay: bool)

  function Render(p: Props, s: LoadState): Rendered {
    var className := p.className.GetOr("");
    var eager := p.eager.GetOr(false);
    Rendered(
      ContainerClass(s.isLoaded, className), PaddingBottom(p.aspectRatio),
      p.src, p.alt, ImageClass(s.isLoaded), Loading(eager),
      s.hasError)
  }

  lemma FrameTokens()
    ensures SplitSpace(frame) == ["relative", "overflow-hidden"]
  {
    SplitTwo(frame, "relative", "overflow-hidden");
  }

  lemma PulseTokens()
    ensures SplitSpace(pulse) == ["bg-gray-200", "animate-pulse"]
  {
    SplitTwo(pulse, "bg-gray-200", "animate-pulse");
  }

  lemma FadeTokens()
    ensures SplitSpace(fade) == ["transition-opacity", "duration-300"]
  {
    SplitTwo(fade, "transition-opacity", "duration-300");
  }

  /** The frame, then the pulse while loading, then the caller's class when non-empty. */
  lemma ContainerShape(isLoaded: bool, className: string)
    ensures ContainerClass(isLoaded, className) ==
      frame + (if isLoaded then "" else " " + pulse) + Spaced(className)
  {
    var middle: Option<string> := if !isLoaded then Some(pulse) else None;
    CnAfterHead2(frame, middle, Some(className));
    assert Spaced(Shown(middle)) == if isLoaded then "" else " " + pulse;
  }

  /** Read as a list of classes: the frame's two, the pulse's two while loading, then the
      caller's own classes. */
  lemma ContainerTokens(isLoaded: bool, className: string)
    ensures SplitSpace(ContainerClass(isLoaded, className)) ==
      ["relative", "overflow-hidden"]
      + (if isLoaded then [] else ["bg-gray-200", "animate-pulse"])
      + (if className == "" then [] else SplitSpace(className))
  {
    ContainerShape(isLoaded, className);
    var head := frame + (if isLoaded then "" else " " + pulse);
    HeadTokens(isLoaded);
    SplitSpaced(head, className);
  }

  lemma HeadTokens(isLoaded: bool)
    ensures SplitSpace(frame + (if isLoaded then "" else " " + pulse)) ==
      ["relative", "overflow-hidden"] + (if isLoaded then [] else ["bg-gray-200", "animate-pulse"])
  {
    FrameTokens();
    PulseTokens();
    SplitSpaced(frame, if isLoaded then "" else pulse);
    if !isLoaded {
      assert pulse != "";
    }
  }

  /** The placeholder pulse is among the container's classes exactly while the image is
      loading, unless the caller's class brings it in itself. */
  lemma PulseIffLoading(isLoaded: bool, className: string)
    ensures "animate-pulse" in SplitSpace(ContainerClass(isLoaded, className)) <==>
      !isLoaded || (className != "" && "animate-pulse" in SplitSpace(className))
  {
    ContainerTokens(isLoaded, className);
  }

  /** A non-empty caller class is the container's final segment. */
  lemma ContainerOverrideLast(isLoaded: bool, className: string)
    requires className != ""
    ensures EndsWith(ContainerClass(isLoaded, className), " " + className)
  {
    ContainerShape(isLoaded, className);
  }

  /** The fade, then the opacity matching the state. */
  lemma ImageShape(isLoaded: bool)
    ensures ImageClass(isLoaded) == fade + " " + Opacity(isLoaded)
  {
    var o := Opacity(isLoaded);
    CnCons(fade, [Some(o)]);
    CnSingle(o);
    assert [Some(fade)] + [Some(o)] == [Some(fade), Some(o)];
  }

  lemma OpacityWord(isLoaded: bool)
    ensures ' ' !in Opacity(isLoaded)
  {
  }

  /** The two states give different image classes. */
  lemma ImageClassDistinct()
    ensures ImageClass(true) != ImageClass(false)
  {
    ImageShape(true);
    ImageShape(false);
    assert |Opacity(true)| != |Opacity(false)|;
  }

  /** Read as a list of classes: the fade's two, then the opacity. */
  lemma ImageTokens(isLoaded: bool)
    ensures SplitSpace(ImageClass(isLoaded)) ==
      ["transition-opacity", "duration-300", Opacity(isLoaded)]
  {
    var o := Opacity(isLoaded);
    ImageShape(isLoaded);
    FadeTokens();
    SplitSpaceAt(fade, o);
    OpacityWord(isLoaded);
    SplitWord(o);
    assert ["transition-opacity", "duration-300"] + [o] == ["transition-opacity", "duration-300", o];
  }

  /** The overlay follows `hasError`, `loading` follows `eager`, the bottom padding is
      there exactly for a non-empty aspect ratio; and in a reachable state the overlay is
      never shown over a pulsing, transparent placeholder. */
  lemma RenderFollowsState(p: Props, events: seq<Event>)
    ensures Render(p, Run(events)).errorOverlay <==> Error in events
    ensures Render(p, Run(events)).loading == "eager" <==> p.eager == Some(true)
    ensures Render(p, Run(events)).paddingBottom.Some? <==> Truthy(p.aspectRatio)
    ensures Render(p, Run(events)).errorOverlay ==>
      Render(p, Run(events)).imageClass == ImageClass(true) &&
      Render(p, Run(events)).containerClass == ContainerClass(true, p.className.GetOr(""))
  {
    FlagsRecordHistory(events);
    ReachableConsistent(events);
  }
}
