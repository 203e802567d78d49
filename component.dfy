/** The image component `NgxImageengineComponent`: its inputs, its derived state, the
    lifecycle hooks that run the evaluation pipelines, and the two debounce slots. */
module ImageComponent {
  import opened JsValues
  import opened ImageDirectives
  import opened Visibility
  import opened Sizing
  import opened Source

  /** The two debounce channels. */
  datatype Channel = ResizeChannel | ScrollChannel

  /** A scheduled callback: which channel it belongs to and its delay in milliseconds. */
  datatype Timer = Timer(channel: Channel, delay: nat)

  const ResizeDelay: nat := 250
  const ScrollDelay: nat := 100

  /** The message `ngOnInit` throws when `path` is not a string. */
  const PathRequired := "Valid path attribute is required"

  /** The inputs whose change makes `ngOnChanges` re-run the pipeline, in the order its
      `||` chain tests them. */
  const WatchedInputs: seq<string> :=
    ["directives", "path", "host", "wrapper_classes", "wrapper_styles", "image_classes", "image_styles", "derive_size"]

  /** The `firstChange` flag of the first key of `keys` present in `changes` (a map from
      input name to that input's `firstChange`), or None when none is present. */
  function FirstChangeOf(keys: seq<string>, changes: map<string, bool>): (r: Option<bool>)
    ensures r.None? <==> forall i :: 0 <= i < |keys| ==> keys[i] !in changes
    ensures r.Some? ==> exists i :: && 0 <= i < |keys| && keys[i] in changes && r.value == changes[keys[i]]
                                     && forall j :: 0 <= j < i ==> keys[j] !in changes
  {
    if keys == [] then None
    else if keys[0] in changes then Some(changes[keys[0]])
    else
      var r := FirstChangeOf(keys[1..], changes);
      assert forall i :: 0 <= i < |keys[1..]| ==> keys[1..][i] == keys[i + 1];
      if r.Some? then
        var i :| && 0 <= i < |keys[1..]| && keys[1..][i] in changes && r.value == changes[keys[1..][i]]
                 && forall j :: 0 <= j < i ==> keys[1..][j] !in changes;
        assert forall j :: 0 <= j < i + 1 ==> keys[j] !in changes by {
          forall j | 0 <= j < i + 1 ensures keys[j] !in changes {
            if j > 0 { assert keys[j] == keys[1..][j - 1]; }
          }
        }
        r
      else r
  }

  /** `is_changes && !is_changes.firstChange`: the pipeline re-runs when the first watched
      input present in the change set is not on its first change. */
  function ShouldRerun(changes: map<string, bool>): (rerun: bool)
    ensures rerun ==> exists k :: k in WatchedInputs && k in changes && !changes[k]
    ensures (forall k :: k in changes ==> changes[k]) ==> !rerun
    ensures "directives" in changes && !changes["directives"] ==> rerun
  {
    var first := FirstChangeOf(WatchedInputs, changes);
    first.Some? && !first.value
  }

  class NgxImageengineComponent {
    /** The external `build_IE_url(url, directives, debug)`, taken as given. */
    const buildUrl: (string, Directives, bool) -> string

    // inputs
    var directives: Directives
    var path: Option<string>
    var host: Option<string>
    var responsive: bool
    var deriveSize: bool
    var lazy: bool
    var stripFromSrc: string
    var debug: bool

    // derived state
    var finalHost: string
    var finalSrc: Option<string>
    var imageWidth: Option<int>
    var directiveWidth: Option<int>
    var imageHeight: Option<int>
    var directiveHeight: Option<int>
    var viewport: Viewport
    var isInViewport: bool
    var ready: bool
    var resizeTimer: Option<int>
    var scrollTimer: Option<int>

    // what the browser and the framework hold on the component's behalf
    /** The timers scheduled and neither fired nor cleared, by handle. */
    var pendingTimers: map<int, Timer>
    /** The handle the next `setTimeout` returns; handles are positive. */
    var nextTimerId: int
    /** How many times `detectChanges` was requested. */
    var changeDetections: nat
    /** The wrapper element's `style.backgroundSize`, None while unset. */
    var wrapperBackgroundSize: Option<string>

    /** The timers of one channel that are still pending. */
    function PendingOn(ch: Channel): set<int>
      reads this`pendingTimers
    {
      set id | id in pendingTimers && pendingTimers[id].channel == ch
    }

    /** Handles are distinct and positive; every pending timer is the one its channel's
        slot holds, so each channel has at most one pending timer. */
    ghost predicate Valid()
      reads this`pendingTimers, this`nextTimerId, this`resizeTimer, this`scrollTimer
    {
      && 1 <= nextTimerId
      && (forall id :: id in pendingTimers ==> 1 <= id < nextTimerId)
      && (resizeTimer.Some? ==> 1 <= resizeTimer.value < nextTimerId)
      && (scrollTimer.Some? ==> 1 <= scrollTimer.value < nextTimerId)
      && (forall id :: id in pendingTimers && pendingTimers[id].channel == ResizeChannel
            ==> resizeTimer == Some(id) && pendingTimers[id].delay == ResizeDelay)
      && (forall id :: id in pendingTimers && pendingTimers[id].channel == ScrollChannel
            ==> scrollTimer == Some(id) && pendingTimers[id].delay == ScrollDelay)
      && (resizeTimer.Some? && resizeTimer.value in pendingTimers ==> pendingTimers[resizeTimer.value].channel == ResizeChannel)
      && (scrollTimer.Some? && scrollTimer.value in pendingTimers ==> pendingTimers[scrollTimer.value].channel == ScrollChannel)
    }

    /** The four size fields together. */
    ghost function Sizes(): SizeFields
      reads this`imageWidth, this`imageHeight, this`directiveWidth, this`directiveHeight
    {
      SizeFields(ImageSize(imageWidth, imageHeight), directiveWidth, directiveHeight)
    }

    /** What `maybe_ready` does to the readiness state between two points in time. */
    twostate predicate ReadinessGate()
      reads this`ready, this`lazy, this`isInViewport, this`changeDetections, this`wrapperBackgroundSize
    {
      && (ready <==> old(ready) || !lazy || isInViewport)
      && (!old(ready) && ready ==> && changeDetections == old(changeDetections) + 1
                                   && wrapperBackgroundSize == Some("100%"))
      && (old(ready) || !ready ==> && changeDetections == old(changeDetections)
                                   && wrapperBackgroundSize == old(wrapperBackgroundSize))
    }

    constructor (buildUrl: (string, Directives, bool) -> string)
      ensures Valid() && this.buildUrl == buildUrl
      ensures directives == NoDirectives && path == None && host == Some("")
      ensures !responsive && !deriveSize && lazy && stripFromSrc == "" && !debug
      ensures finalHost == "" && finalSrc == None && Sizes() == NoSizes
      ensures viewport == Viewport(0, 0) && !isInViewport && !ready
      ensures resizeTimer == None && scrollTimer == None && pendingTimers == map[]
      ensures changeDetections == 0 && wrapperBackgroundSize == None && nextTimerId == 1
    {
      this.buildUrl := buildUrl;
      directives := NoDirectives;
      path := None;
      host := Some("");
      responsive, deriveSize, lazy := false, false, true;
      stripFromSrc := "";
      debug := false;
      finalHost := "";
      finalSrc := None;
      imageWidth, directiveWidth, imageHeight, directiveHeight := None, None, None, None;
      viewport := Viewport(0, 0);
      isInViewport, ready := false, false;
      resizeTimer, scrollTimer := None, None;
      pendingTimers := map[];
      nextTimerId := 1;
      changeDetections := 0;
      wrapperBackgroundSize := None;
    }

    /** `window.setTimeout`: schedules a timer under a fresh handle. */
    method SetTimeout(t: Timer) returns (id: int)
      modifies this`pendingTimers, this`nextTimerId
      ensures id == old(nextTimerId) && nextTimerId == id + 1
      ensures pendingTimers == old(pendingTimers)[id := t]
    {
      id := nextTimerId;
      pendingTimers := pendingTimers[id := t];
      nextTimerId := nextTimerId + 1;
    }

    /** The `window:resize` listener: when responsive, cancels the pending resize timer and
        schedules `maybe_resize` in 250 ms. The scroll slot is not touched. */
    method OnResize()
      requires Valid()
      modifies this`pendingTimers, this`nextTimerId, this`resizeTimer
      ensures Valid()
      ensures PendingOn(ScrollChannel) == old(PendingOn(ScrollChannel))
      ensures responsive ==> && resizeTimer == Some(old(nextTimerId)) && nextTimerId == old(nextTimerId) + 1
                             && PendingOn(ResizeChannel) == {old(nextTimerId)}
                             && pendingTimers[old(nextTimerId)] == Timer(ResizeChannel, ResizeDelay)
      ensures !responsive ==> && pendingTimers == old(pendingTimers) && nextTimerId == old(nextTimerId)
                              && resizeTimer == old(resizeTimer)
    {
      if responsive {
        if Truthy(resizeTimer) {
          pendingTimers := pendingTimers - {resizeTimer.value};
        }
        ghost var cleared := pendingTimers;
        assert forall k :: k in cleared ==> cleared[k].channel != ResizeChannel;
        var id := SetTimeout(Timer(ResizeChannel, ResizeDelay));
        resizeTimer := Some(id);
        assert PendingOn(ScrollChannel) == old(PendingOn(ScrollChannel)) by {
          assert forall k :: k in cleared ==> k in old(pendingTimers) && cleared[k] == old(pendingTimers)[k];
        }
      }
    }

    /** The `window:scroll` listener: when lazy, cancels the pending scroll timer and
        schedules `maybe_scrolled` in 100 ms. The resize slot is not touched. */
    method OnScroll()
      requires Valid()
      modifies this`pendingTimers, this`nextTimerId, this`scrollTimer
      ensures Valid()
      ensures PendingOn(ResizeChannel) == old(PendingOn(ResizeChannel))
      ensures lazy ==> && scrollTimer == Some(old(nextTimerId)) && nextTimerId == old(nextTimerId) + 1
                       && PendingOn(ScrollChannel) == {old(nextTimerId)}
                       && pendingTimers[old(nextTimerId)] == Timer(ScrollChannel, ScrollDelay)
      ensures !lazy ==> && pendingTimers == old(pendingTimers) && nextTimerId == old(nextTimerId)
                        && scrollTimer == old(scrollTimer)
    {
      if lazy {
        if Truthy(scrollTimer) {
          pendingTimers := pendingTimers - {scrollTimer.value};
        }
        ghost var cleared := pendingTimers;
        assert forall k :: k in cleared ==> cleared[k].channel != ScrollChannel;
        var id := SetTimeout(Timer(ScrollChannel, ScrollDelay));
        scrollTimer := Some(id);
        assert PendingOn(ResizeChannel) == old(PendingOn(ResizeChannel)) by {
          assert forall k :: k in cleared ==> k in old(pendingTimers) && cleared[k] == old(pendingTimers)[k];
        }
      }
    }

    /** `ngOnInit`: a path that is not a string is a fatal configuration error, reported
        before anything is set; otherwise the host prefix is fixed. */
    method NgOnInit() returns (error: Option<string>)
      modifies this`finalHost
      ensures error.Some? <==> path.None?
      ensures error.Some? ==> error.value == PathRequired && finalHost == old(finalHost)
      ensures error.None? ==> finalHost == (if host.Some? then host.value else "")
    {
      if path.None? {
        return Some(PathRequired);
      }
      SetFinalHost();
      error := None;
    }

    /** `set_final_host`: the host, or the empty string when it is not a string. */
    method SetFinalHost()
      modifies this`finalHost
      ensures host.Some? ==> finalHost == host.value
      ensures host.None? ==> finalHost == ""
    {
      finalHost := if host.Some? then host.value else "";
    }

    /** `set_viewport`: takes the window size, falling back to the document element's. */
    method SetViewport(w: WindowSize)
      modifies this`viewport
      ensures viewport == ViewportOf(w)
    {
      viewport := ViewportOf(w);
    }

    /** `maybe_is_in_viewport`: tests the wrapper's current rect against the stored viewport. */
    method MaybeIsInViewport(rect: Rect)
      modifies this`isInViewport
      ensures isInViewport == CheckIfInViewport(rect, viewport)
    {
      isInViewport := CheckIfInViewport(rect, viewport);
    }

    /** `maybe_ready`: the one-way readiness gate. On the false-to-true transition only, it
        requests change detection and sets the wrapper's background size. */
    method MaybeReady()
      modifies this`ready, this`changeDetections, this`wrapperBackgroundSize
      ensures ReadinessGate()
      ensures old(ready) ==> ready
    {
      if !ready && (!lazy || isInViewport) {
        ready := true;
        changeDetections := changeDetections + 1;
        wrapperBackgroundSize := Some("100%");
      }
    }

    /** `set_sizes_by_fit`: stores the request in the directive fields, then applies the
        fit mode's branch to the image fields. */
    method SetSizesByFit(width: Option<int>, height: Option<int>)
      modifies this`imageWidth, this`imageHeight, this`directiveWidth, this`directiveHeight
      ensures Sizes() == SizesByFit(directives.fit, width, height, old(Sizes()))
    {
      directiveWidth := width;
      directiveHeight := height;
      match FitModeOf(directives.fit)
      case Cropbox =>
        if (Truthy(width) && width.value > OrZero(imageWidth)) || (Truthy(height) && height.value > OrZero(imageHeight)) {
          if Truthy(width) && Truthy(height) && width.value >= OrZero(height) {
            imageHeight := height;
            imageWidth := None;
          } else if Truthy(width) {
            imageWidth := width;
            imageHeight := None;
          }
        }
      case Letterbox | Stretch =>
        if (Truthy(width) && width.value > OrZero(imageWidth)) || (Truthy(height) && height.value > OrZero(imageHeight)) {
          imageWidth := width;
          imageHeight := height;
        }
      case DefaultFit =>
        if Truthy(width) && width.value >= OrZero(height) {
          imageWidth := width;
          imageHeight := None;
        } else if Truthy(height) {
          imageHeight := height;
          imageWidth := None;
        }
    }

    /** `set_sizes`, with the wrapper's bounding rect measured by the caller. */
    method SetSizes(rect: Rect)
      modifies this`imageWidth, this`imageHeight, this`directiveWidth, this`directiveHeight
      ensures Sizes() == Sizing.SetSizes(deriveSize, directives, rect, old(Sizes()))
    {
      if deriveSize {
        SetSizesByFit(Some(rect.width), Some(rect.height));
      } else {
        if directives.noOptimization {
          directiveWidth := None;
          directiveHeight := None;
          imageWidth := None;
          imageHeight := None;
        } else {
          SetSizesByFit(directives.width, directives.height);
        }
      }
    }

    /** `build_source`: hands the host-prefixed, stripped path and a copy of the directives
        to the URL builder; the `directives` input itself is left as it is. */
    method BuildSource()
      modifies this`finalSrc
      ensures finalSrc == Some(buildUrl(SourceUrl(finalHost, path, stripFromSrc),
                                        FinalDirectives(directives, deriveSize, Sizes()), debug))
    {
      var finalDirectives := directives;
      var finalPath := FinalPath(path, stripFromSrc);
      if deriveSize {
        finalDirectives := finalDirectives.(width := Or(imageWidth, directiveWidth), height := Or(imageHeight, directiveHeight));
      }
      finalSrc := Some(buildUrl(finalHost + finalPath, finalDirectives, debug));
    }

    /** `ngAfterViewInit`: viewport, sizes, visibility, source, readiness, in that order. */
    method NgAfterViewInit(rect: Rect, w: WindowSize)
      modifies this`viewport, this`imageWidth, this`imageHeight, this`directiveWidth, this`directiveHeight
      modifies this`isInViewport, this`finalSrc, this`ready, this`changeDetections, this`wrapperBackgroundSize
      ensures viewport == ViewportOf(w)
      ensures Sizes() == Sizing.SetSizes(deriveSize, directives, rect, old(Sizes()))
      ensures isInViewport == CheckIfInViewport(rect, ViewportOf(w))
      ensures finalSrc == Some(buildUrl(SourceUrl(finalHost, path, stripFromSrc),
                                        FinalDirectives(directives, deriveSize, Sizes()), debug))
      ensures ReadinessGate()
      ensures old(ready) ==> ready
    {
      SetViewport(w);
      SetSizes(rect);
      MaybeIsInViewport(rect);
      BuildSource();
      MaybeReady();
    }

    /** `ngOnChanges`, after the framework has stored the new input values: re-runs sizes,
        visibility, source and readiness unless the change is a first change. The viewport
        is not re-measured. */
    method NgOnChanges(changes: map<string, bool>, rect: Rect)
      modifies this`imageWidth, this`imageHeight, this`directiveWidth, this`directiveHeight
      modifies this`isInViewport, this`finalSrc, this`ready, this`changeDetections, this`wrapperBackgroundSize
      ensures !ShouldRerun(changes) ==> && Sizes() == old(Sizes()) && isInViewport == old(isInViewport)
                                        && finalSrc == old(finalSrc) && ready == old(ready)
                                        && changeDetections == old(changeDetections)
                                        && wrapperBackgroundSize == old(wrapperBackgroundSize)
      ensures ShouldRerun(changes) ==> && Sizes() == Sizing.SetSizes(deriveSize, directives, rect, old(Sizes()))
                                       && isInViewport == CheckIfInViewport(rect, viewport)
                                       && finalSrc == Some(buildUrl(SourceUrl(finalHost, path, stripFromSrc),
                                                                    FinalDirectives(directives, deriveSize, Sizes()), debug))
                                       && ReadinessGate()
      ensures old(ready) ==> ready
    {
      var first := FirstChangeOf(WatchedInputs, changes);
      if first.Some? && !first.value {
        SetSizes(rect);
        MaybeIsInViewport(rect);
        BuildSource();
        MaybeReady();
      }
    }

    /** `maybe_resize`, the resize timer's callback: sizes before the viewport is
        re-measured, then visibility and readiness. The source is not rebuilt. */
    method MaybeResize(rect: Rect, w: WindowSize)
      modifies this`viewport, this`imageWidth, this`imageHeight, this`directiveWidth, this`directiveHeight
      modifies this`isInViewport, this`ready, this`changeDetections, this`wrapperBackgroundSize
      ensures Sizes() == Sizing.SetSizes(deriveSize, directives, rect, old(Sizes()))
      ensures viewport == ViewportOf(w)
      ensures isInViewport == CheckIfInViewport(rect, ViewportOf(w))
      ensures ReadinessGate()
      ensures old(ready) ==> ready
    {
      SetSizes(rect);
      SetViewport(w);
      MaybeIsInViewport(rect);
      MaybeReady();
    }

    /** `maybe_scrolled`, the scroll timer's callback: visibility and readiness only. */
    method MaybeScrolled(rect: Rect)
      modifies this`isInViewport, this`ready, this`changeDetections, this`wrapperBackgroundSize
      ensures isInViewport == CheckIfInViewport(rect, viewport)
      ensures ReadinessGate()
      ensures old(ready) ==> ready
    {
      MaybeIsInViewport(rect);
      MaybeReady();
    }

    /** The browser firing timer `id`, with the wrapper's rect and the window size at that
        moment. A cleared or already fired timer does nothing. The fired handle stays in its
        slot, as the source never resets it. */
    method FireTimer(id: int, rect: Rect, w: WindowSize)
      requires Valid()
      modifies this`pendingTimers, this`viewport, this`imageWidth, this`imageHeight, this`directiveWidth
      modifies this`directiveHeight, this`isInViewport, this`ready, this`changeDetections, this`wrapperBackgroundSize
      ensures Valid()
      ensures pendingTimers == old(pendingTimers) - {id}
      ensures id !in old(pendingTimers) ==> && Sizes() == old(Sizes()) && viewport == old(viewport)
                                            && isInViewport == old(isInViewport) && ready == old(ready)
                                            && changeDetections == old(changeDetections)
                                            && wrapperBackgroundSize == old(wrapperBackgroundSize)
      ensures id in old(pendingTimers) && old(pendingTimers)[id].channel == ResizeChannel ==>
                && Sizes() == Sizing.SetSizes(deriveSize, directives, rect, old(Sizes()))
                && viewport == ViewportOf(w) && isInViewport == CheckIfInViewport(rect, ViewportOf(w))
      ensures id in old(pendingTimers) && old(pendingTimers)[id].channel == ScrollChannel ==>
                && Sizes() == old(Sizes()) && viewport == old(viewport)
                && isInViewport == CheckIfInViewport(rect, viewport)
      ensures id in old(pendingTimers) ==> ReadinessGate()
      ensures old(ready) ==> ready
    {
      if id in pendingTimers {
        var t := pendingTimers[id];
        pendingTimers := pendingTimers - {id};
        match t.channel
        case ResizeChannel => MaybeResize(rect, w);
        case ScrollChannel => MaybeScrolled(rect);
      }
    }

    /** Each channel has at most one pending timer. */
    lemma AtMostOnePendingPerChannel(ch: Channel)
      requires Valid()
      ensures |PendingOn(ch)| <= 1
    {
      var slot := if ch == ResizeChannel then resizeTimer else scrollTimer;
      forall id | id in PendingOn(ch) ensures slot == Some(id) {
        assert id in pendingTimers && pendingTimers[id].channel == ch;
      }
      if slot.Some? && slot.value in PendingOn(ch) {
        assert PendingOn(ch) == {slot.value};
      } else {
        assert PendingOn(ch) == {};
      }
    }
  }
}
