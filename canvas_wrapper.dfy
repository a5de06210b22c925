/** The section wrapper around the 3D canvas: on every change of the smoothed
    progress it recomputes whether the side text is revealed and whether the
    logo is shown, and it remembers once the model has loaded. */
module CanvasWrapper {

  /** Progress is stretched by this factor before the thresholds are applied. */
  const Stretch := 1.15
  const RevealAt := 0.95
  const LogoAt := 1.1

  /** The first change listener's reveal test, on the unstretched progress. */
  predicate PlainReveal(latest: real) { latest >= RevealAt }

  /** The second change listener's reveal test. */
  predicate Reveal(latest: real) { latest * Stretch >= RevealAt }

  /** The logo test. */
  predicate ShowLogo(latest: real) { latest * Stretch >= LogoAt }

  /** In terms of the unstretched progress the thresholds are 19/23 and 22/23. */
  lemma Thresholds(latest: real)
    ensures Reveal(latest) <==> latest >= 19.0 / 23.0
    ensures ShowLogo(latest) <==> latest >= 22.0 / 23.0
  {
  }

  /** Whenever the logo is shown the side text is revealed. */
  lemma LogoImpliesReveal(latest: real)
    ensures ShowLogo(latest) ==> Reveal(latest)
  {
  }

  /** More progress never turns a flag off. */
  lemma FlagsMonotone(a: real, b: real)
    requires a <= b
    ensures Reveal(a) ==> Reveal(b)
    ensures ShowLogo(a) ==> ShowLogo(b)
    ensures PlainReveal(a) ==> PlainReveal(b)
  {
  }

  /** The two listeners disagree on the reveal flag exactly for progress in
      [19/23, 0.95), where only the second reveals. */
  lemma ListenersDisagree(latest: real)
    ensures PlainReveal(latest) != Reveal(latest) <==> 19.0 / 23.0 <= latest < 0.95
    ensures PlainReveal(latest) ==> Reveal(latest)
  {
  }

  /** Where the side-text group animates to. */
  datatype Variant = Hidden | Visible

  /** The two flags the change listeners maintain. */
  datatype Flags = Flags(shouldReveal: bool, showLogo: bool)

  /** The flags the listeners leave behind for progress `latest`. */
  function FlagsFor(latest: real): Flags
  {
    Flags(Reveal(latest), ShowLogo(latest))
  }

  /** The flags after a run of change events starting from `flags`. */
  function AfterChanges(flags: Flags, values: seq<real>): Flags
    decreases |values|
  {
    if values == [] then flags else AfterChanges(FlagsFor(values[0]), values[1..])
  }

  /** Nothing latches: after any non-empty run of changes the flags depend
      only on the last value, however high earlier values went. */
  lemma {:induction false} OnlyLastChangeCounts(flags: Flags, values: seq<real>)
    requires values != []
    ensures AfterChanges(flags, values) == FlagsFor(values[|values| - 1])
    decreases |values|
  {
    if |values| > 1 {
      OnlyLastChangeCounts(FlagsFor(values[0]), values[1..]);
    }
  }

  /** The state of the wrapper component. */
  class Wrapper {
    var modelLoaded: bool
    var shouldReveal: bool
    var showLogo: bool

    /** The logo is never shown without the side text. */
    predicate Valid()
      reads this
    {
      showLogo ==> shouldReveal
    }

    constructor ()
      ensures Valid()
      ensures !modelLoaded && !shouldReveal && !showLogo
    {
      modelLoaded := false;
      shouldReveal := false;
      showLogo := false;
    }

    /** The first change listener. */
    method RevealListener(latest: real)
      modifies this
      ensures shouldReveal == PlainReveal(latest)
      ensures modelLoaded == old(modelLoaded) && showLogo == old(showLogo)
    {
      shouldReveal := latest >= 0.95;
    }

    /** The second change listener. */
    method StretchedListener(latest: real)
      modifies this
      ensures shouldReveal == Reveal(latest) && showLogo == ShowLogo(latest)
      ensures modelLoaded == old(modelLoaded)
    {
      var scaledScroll := latest * 1.15;
      shouldReveal := scaledScroll >= 0.95;
      showLogo := scaledScroll >= 1.1;
    }

    /** A change of the smoothed progress, delivered to both listeners in the
        order they were registered. */
    method OnChange(latest: real)
      modifies this
      ensures Valid()
      ensures shouldReveal == Reveal(latest) && showLogo == ShowLogo(latest)
      ensures modelLoaded == old(modelLoaded)
    {
      RevealListener(latest);
      StretchedListener(latest);
    }

    /** The model reported that it has loaded. */
    method OnModelLoad()
      requires Valid()
      modifies this
      ensures Valid()
      ensures modelLoaded
      ensures shouldReveal == old(shouldReveal) && showLogo == old(showLogo)
    {
      modelLoaded := true;
    }

    /** Whether "Preparing GPU..." is on screen. */
    function StatusTextShown(): (shown: bool)
      reads this
    {
      !modelLoaded
    }

    /** Where the side-text group animates to. */
    function SideText(): (v: Variant)
      reads this
    {
      if shouldReveal then Visible else Hidden
    }

    /** Whether the logo is rendered. */
    function LogoRendered(): (shown: bool)
      reads this
      ensures Valid() && shown ==> SideText() == Visible
    {
      showLogo
    }
  }

  /** A run of change events once the model has loaded: the flags the
      listeners leave behind after each prefix of the run are those of
      `AfterChanges`, so the rendered view depends on the last value only.
      The status text stays gone, the side text shows exactly from progress
      19/23 on, and the logo exactly from 22/23 on, never without the side
      text. */
  method LoadThenChanges(values: seq<real>) returns (statusShown: bool, side: Variant, logo: bool)
    ensures !statusShown
    ensures values == [] ==> side == Hidden && !logo
    ensures values != [] ==> (side == Visible <==> values[|values| - 1] >= 19.0 / 23.0)
    ensures values != [] ==> (logo <==> values[|values| - 1] >= 22.0 / 23.0)
    ensures logo ==> side == Visible
  {
    var w := new Wrapper();
    w.OnModelLoad();
    ghost var start := Flags(w.shouldReveal, w.showLogo);
    var i := 0;
    while i < |values|
      invariant 0 <= i <= |values|
      invariant w.modelLoaded && w.Valid()
      invariant Flags(w.shouldReveal, w.showLogo) == AfterChanges(start, values[..i])
    {
      w.OnChange(values[i]);
      OnlyLastChangeCounts(start, values[..i + 1]);
      i := i + 1;
    }
    assert values[..i] == values;
    if values != [] {
      OnlyLastChangeCounts(start, values);
      Thresholds(values[|values| - 1]);
    }
    statusShown := w.StatusTextShown();
    side := w.SideText();
    logo := w.LogoRendered();
  }

  /** Once the model has loaded the status text stays gone, whatever the
      progress does afterwards, and the logo only ever appears together with
      the side text; a drop below the reveal threshold hides the side text
      again. */
  method LoadThenScroll(high: real, low: real) returns (statusShown: bool, logoWithoutText: bool, revealed: bool)
    requires low * 1.15 < 0.95
    ensures !statusShown && !logoWithoutText && !revealed
  {
    var w := new Wrapper();
    w.OnModelLoad();
    w.OnChange(high);
    w.OnChange(low);
    var logo := w.LogoRendered();
    var side := w.SideText();
    statusShown := w.StatusTextShown();
    logoWithoutText := logo && side != Visible;
    revealed := side == Visible;
  }
}
