/** The situations the component's own test suite sets up, stated against the model. */
module Scenarios {
  import opened JsValues
  import opened ImageDirectives
  import opened Visibility
  import opened Sizing
  import opened Source
  import opened ImageComponent

  /** The wrapper rect most tests measure: 300 by 200, on screen. */
  const OnScreen := Rect(100, 100, 100, 100, 300, 200)

  /** The wrapper rect of the hidden-image test: 300 by 200, every edge at 0. */
  const Collapsed := Rect(0, 0, 0, 0, 300, 200)

  const Window := WindowSize(1024, 768, 1024, 768)

  function WithFit(fit: string): Directives {
    NoDirectives.(fit := Some(fit))
  }

  /** Derived size with no fit: the width survives because it is the larger side, and the
      URL still asks for both measured dimensions. */
  lemma DerivedDefaultFitKeepsWidth(s: SizeFields)
    ensures var r := SetSizes(true, NoDirectives, OnScreen, s);
            && r.image == ImageSize(Some(300), None)
            && FinalDirectives(NoDirectives, true, r) == NoDirectives.(width := Some(300), height := Some(200))
  {
  }

  /** Derived size with letterbox or stretch: both measured dimensions survive, on a
      component whose size fields are still unset. */
  lemma DerivedLetterboxAndStretchKeepBoth(fit: string)
    requires fit == "letterbox" || fit == "stretch"
    ensures var r := SetSizes(true, WithFit(fit), OnScreen, NoSizes);
            && r.image == ImageSize(Some(300), Some(200))
            && FinalDirectives(WithFit(fit), true, r) == WithFit(fit).(width := Some(300), height := Some(200))
  {
  }

  /** `no_optimization` without derived size: no width or height attribute, and the
      directives reach the URL builder as they are. */
  lemma NoOptimizationClearsSizes(d: Directives, rect: Rect, s: SizeFields)
    requires d.noOptimization
    ensures var r := SetSizes(false, d, rect, s);
            r.image == ImageSize(None, None) && FinalDirectives(d, false, r) == d
  {
  }

  /** The strip test: the domain prefix is removed and the host put in its place. */
  lemma StripDomainScenario()
    ensures FinalPath(Some("https://some.domain/test.jpg"), "https://some.domain") == "/test.jpg"
    ensures "http://localhost" + FinalPath(Some("https://some.domain/test.jpg"), "https://some.domain")
            == "http://localhost/test.jpg"
  {
    StripLeadingPrefix("https://some.domain/test.jpg", "https://some.domain");
  }

  /** A change set in which a watched input is on its first change hides a later one that
      is not: `ngOnChanges` tests only the first watched input present. */
  lemma OnlyFirstWatchedInputDecides()
    ensures !ShouldRerun(map["directives" := true, "host" := false])
    ensures ShouldRerun(map["host" := false])
    ensures !ShouldRerun(map["lazy" := false, "strip_from_src" := false])
  {
  }

  /** The hidden-image test: a collapsed wrapper with lazy loading leaves the image not
      ready after the view is attached, so no image element is rendered. */
  method HiddenLazyImageScenario(buildUrl: (string, Directives, bool) -> string)
  {
    var c := new NgxImageengineComponent(buildUrl);
    c.path := Some("/test.jpg");
    c.deriveSize := true;
    ZeroRectNotVisible(300, 200, ViewportOf(Window));
    c.NgAfterViewInit(Collapsed, Window);
    assert !c.isInViewport && !c.ready;
    assert c.wrapperBackgroundSize == None && c.changeDetections == 0;
  }

  /** The hidden image later scrolled on screen: the debounced scroll makes it ready, once. */
  method ScrolledIntoViewScenario(buildUrl: (string, Directives, bool) -> string)
  {
    var c := new NgxImageengineComponent(buildUrl);
    c.SetViewport(Window);
    c.OnScroll();
    c.FireTimer(1, OnScreen, Window);
    assert c.ready && c.wrapperBackgroundSize == Some("100%") && c.changeDetections == 1;
    c.FireTimer(1, Collapsed, Window);
    assert c.ready && c.changeDetections == 1;
  }

  /** The derive-size test through `ngAfterViewInit` (host left empty): width attribute
      300, no height attribute, the image ready, and a URL request for both sizes. */
  method DeriveSizeScenario(buildUrl: (string, Directives, bool) -> string, path: string)
  {
    var c := new NgxImageengineComponent(buildUrl);
    c.path := Some(path);
    c.deriveSize := true;
    c.NgAfterViewInit(OnScreen, Window);
    assert c.Sizes() == SizeFields(ImageSize(Some(300), None), Some(300), Some(200));
    assert c.ready;
    assert SourceUrl("", Some(path), "") == path;
    assert c.finalSrc == Some(buildUrl(path, NoDirectives.(width := Some(300), height := Some(200)), false));
  }

  /** A missing path stops initialisation with the configuration error. */
  method MissingPathScenario(buildUrl: (string, Directives, bool) -> string)
  {
    var c := new NgxImageengineComponent(buildUrl);
    var error := c.NgOnInit();
    assert error == Some(PathRequired) && c.finalHost == "";
  }

  /** Two resize events in a row leave one pending resize timer, and a scroll event in
      between keeps its own. */
  method DebounceScenario(buildUrl: (string, Directives, bool) -> string)
  {
    var c := new NgxImageengineComponent(buildUrl);
    c.responsive := true;
    c.OnResize();
    c.OnScroll();
    c.OnResize();
    c.AtMostOnePendingPerChannel(ResizeChannel);
    assert c.PendingOn(ResizeChannel) == {3} && c.PendingOn(ScrollChannel) == {2};
  }
}
