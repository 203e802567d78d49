# ngx-imageengine component: a Dafny model

This project models the logic of `NgxImageengineComponent`. It is an Angular component
that renders a lazily loaded, responsive image. The image's URL is built from a host, a
path and a set of ImageEngine directives, and its width and height attributes come from
the size of the wrapper element and the `fit` directive.

The model covers four pieces of logic and the lifecycle hooks that run them:

- **Viewport test** (`Visibility`). `check_if_in_viewport` is a pure predicate over a
  bounding rect and a viewport snapshot.
- **Size derivation** (`Sizing`). `set_sizes` and `set_sizes_by_fit` update the four size
  fields `image_width`, `image_height`, `directive_width` and `directive_height`. They
  branch on the fit mode: cropbox, letterbox, stretch, or the default. JavaScript
  truthiness is explicit: a `number | undefined` counts as set when it is present and not 0
  (`JsValues.Truthy`).
- **Source composition** (`Source`). `build_source` removes the first occurrence of
  `strip_from_src` from the path and prefixes the host. When `derive_size` is on, it also
  writes `image_x || directive_x` over the directives' width and height.
- **Readiness gate and debounce slots** (`ImageComponent`). The class
  `NgxImageengineComponent` holds the component's fields. Its methods update them in
  place, in the same order as the source. `ready` only ever goes from false to true. The
  resize and scroll listeners each keep at most one pending timer.

The browser and the framework are parameters:

- The wrapper's bounding rect and the window size are method arguments.
- `setTimeout` and `clearTimeout` act on a map of pending timers. `FireTimer` is the
  browser running one of those timers.
- `detectChanges` is a counter.
- The wrapper's `style.backgroundSize` is a field.
- The external `build_IE_url(url, directives, debug)` is a function value given to the
  constructor. The model says exactly which arguments it receives.

`Scenarios` restates the component's own test cases (src/lib/ngx-imageengine.component.spec.ts)
against the model. Its lemmas state the expected sizes, directives and paths. Its methods
drive a component through whole sequences of calls and assert the outcome:
`HiddenLazyImageScenario` (the readiness half of the hidden-image test: a collapsed wrapper
under lazy loading stays not ready), `ScrolledIntoViewScenario` (a debounced scroll later
makes that image ready, once), `DeriveSizeScenario` (the derive-size test through
`ngAfterViewInit`), `MissingPathScenario` (the configuration error) and `DebounceScenario`
(repeated resize and scroll events leave one pending timer per channel).

Behaviour of the code that is easy to misread:

- Under `cropbox`, when both dimensions are set and the width is at least the height, the
  code keeps the **height** and clears the width, even though the branch tests for a
  landscape request.
- `no_optimization` clears the size fields only when `derive_size` is off. With
  `derive_size` on, it is ignored. `build_source` never removes width or height from the
  directives it passes on.
- `ngAfterViewInit` and `ngOnChanges` build the source *before* they evaluate readiness.
- `maybe_resize` derives the sizes *before* it re-measures the viewport, and it does not
  rebuild the source. After a resize, the image's width and height attributes can change
  while its URL stays the same.
- `ngOnChanges` checks `firstChange` only on the first watched input that is present in
  the change set (`Scenarios.OnlyFirstWatchedInputDecides`).
- Nothing cancels pending timers when the component is destroyed.
- The cropbox request that gives only a height leaves both image fields unchanged. The
  model keeps this gap as it is (`Sizing.FitImageSize`).

## Model

| member | source | states |
|---|---|---|
| `Visibility.CheckIfInViewport` | src/lib/ngx-imageengine.component.ts:18-32 | visible exactly when the rect has vertical presence, its top is above the viewport's bottom, it has horizontal presence and its left is left of the viewport's right edge; hence a rect wholly above, below, left or right of the viewport is never visible, and one whose top-left corner is on screen always is |
| `Visibility.ZeroRectNotVisible` | src/lib/ngx-imageengine.component.ts:30-31 | a rect whose four edges are 0 is not in any viewport, whatever its width and height |
| `Sizing.FitImageSize` | src/lib/ngx-imageengine.component.ts:210-240 | the image fields after the fit switch: each field is kept, cleared or set to that dimension's request; cropbox/letterbox/stretch change nothing without the grow trigger (truthy request above the stored value or 0); letterbox/stretch then take the request exactly, absent values included; cropbox keeps only the height when width >= height, else only the width, and nothing without a truthy width; the default mode keeps the width when it is truthy and at least the height (or 0), else a truthy height, else nothing, so for non-negative requests exactly one dimension survives |
| `Sizing.SizesByFit` | src/lib/ngx-imageengine.component.ts:204-209 | the requested width and height always land in the directive fields, rounding being the identity on whole pixels |
| `Sizing.SetSizes` | src/lib/ngx-imageengine.component.ts:181-202 | with `derive_size` the request is the measured rect; without it a truthy `no_optimization` clears all four fields, and otherwise the directives' own width and height are the request; image fields never take a value other than the old one or the request |
| `Sizing.FitKeepsADimension` | src/lib/ngx-imageengine.component.ts:210-240 | for positive requests with at least one dimension present, every mode leaves at least one image field set, except cropbox with no truthy width, which may keep the stored fields as they are |
| `Sizing.FitIdempotent` | src/lib/ngx-imageengine.component.ts:210-240 | repeating a request in the same mode leaves the image fields as the first call left them |
| `Sizing.SetSizesIgnoresRectUnlessDerived` | src/lib/ngx-imageengine.component.ts:182-200 | without `derive_size` the measured rect does not influence the size fields |
| `Sizing.GrowOnlyUnderSmallerRequests` | src/lib/ngx-imageengine.component.ts:211-230 | in cropbox, letterbox and stretch, any series of requests each no larger than the stored size leaves the stored size unchanged |
| `Sizing.CropboxRetriggers` | src/lib/ngx-imageengine.component.ts:211-215 | after cropbox keeps the height of a landscape request it has cleared the width, so the same request fires the grow trigger again: cropbox is not truly grow-only |
| `Sizing.LetterboxMayShrinkWidth` | src/lib/ngx-imageengine.component.ts:225-228 | under letterbox and stretch a taller request shrinks a stored wider width, because both fields take the request |
| `Source.IndexOfFrom` | src/lib/ngx-imageengine.component.ts:245 | the index found is an occurrence of the pattern and no earlier index at or after the start is one; None means no occurrence at all |
| `Source.StripFirst` | src/lib/ngx-imageengine.component.ts:245 | `replace(pat, "")` keeps every string whole for an empty pattern, and otherwise either keeps the length or removes `|pat|` characters |
| `Source.StripFirstRemovesFirstOccurrence` | src/lib/ngx-imageengine.component.ts:245 | the first occurrence of the pattern, and only that one, is cut out, shortening the path by the pattern's length |
| `Source.StripFirstKeepsAbsentPattern` | src/lib/ngx-imageengine.component.ts:245 | a path in which the pattern does not occur is kept whole |
| `Source.StripLeadingPrefix` | src/lib/ngx-imageengine.component.ts:245 | a pattern the path starts with is removed from the front |
| `Source.FinalDirectives` | src/lib/ngx-imageengine.component.ts:244-253 | the directives handed on keep fit, `no_optimization` and every other key; without `derive_size` they are the input unchanged; with it, width and height are the image field when truthy and the directive field otherwise |
| `ImageComponent.FirstChangeOf` | src/lib/ngx-imageengine.component.ts:127-135 | the `firstChange` of the first watched input present in the change set, and None exactly when none of them is present |
| `ImageComponent.ShouldRerun` | src/lib/ngx-imageengine.component.ts:137 | the pipeline re-runs only if some watched input changed after its first change, never when every change is a first change, and always when `directives` changed after its first change |
| `ImageComponent.NgxImageengineComponent.constructor` | src/lib/ngx-imageengine.component.ts:47-84 | every input and field starts at the source's default: lazy on, responsive and derive_size off, empty host and strip, no sizes, not ready, no timers |
| `ImageComponent.NgxImageengineComponent.OnResize` | src/lib/ngx-imageengine.component.ts:86-92 | when responsive, the resize slot holds one newly scheduled 250 ms timer and no other resize timer is pending; otherwise nothing changes; the pending scroll timers are untouched; the slot invariant is kept |
| `ImageComponent.NgxImageengineComponent.OnScroll` | src/lib/ngx-imageengine.component.ts:94-100 | when lazy, the scroll slot holds one newly scheduled 100 ms timer and no other scroll timer is pending; otherwise nothing changes; the pending resize timers are untouched |
| `ImageComponent.NgxImageengineComponent.AtMostOnePendingPerChannel` | src/lib/ngx-imageengine.component.ts:83-100 | under the slot invariant each channel has at most one pending timer |
| `ImageComponent.NgxImageengineComponent.FireTimer` | src/lib/ngx-imageengine.component.ts:90 | a pending resize timer runs `maybe_resize`, a pending scroll timer runs `maybe_scrolled` (sizes and viewport untouched), a cleared or fired timer does nothing; readiness never reverts |
| `ImageComponent.NgxImageengineComponent.NgOnInit` | src/lib/ngx-imageengine.component.ts:104-115 | fails with "Valid path attribute is required", before setting anything, exactly when `path` is not a string; otherwise fixes the host prefix |
| `ImageComponent.NgxImageengineComponent.SetFinalHost` | src/lib/ngx-imageengine.component.ts:145-147 | the host prefix is the host, or "" when the host is not a string |
| `ImageComponent.NgxImageengineComponent.SetViewport` | src/lib/ngx-imageengine.component.ts:149-152 | the viewport is the window's inner size, each dimension falling back to the document element's client size when 0 |
| `ImageComponent.NgxImageengineComponent.MaybeIsInViewport` | src/lib/ngx-imageengine.component.ts:166-168 | `is_in_viewport` is the viewport test of the current rect against the stored viewport |
| `ImageComponent.NgxImageengineComponent.MaybeReady` | src/lib/ngx-imageengine.component.ts:170-179 | `ready` becomes true exactly when it was false and lazy loading is off or the element is in the viewport, and never reverts; only on that transition is change detection requested once and the wrapper's background size set to "100%" |
| `ImageComponent.NgxImageengineComponent.SetSizesByFit` | src/lib/ngx-imageengine.component.ts:204-241 | the four size fields become `Sizing.SizesByFit` of their old values |
| `ImageComponent.NgxImageengineComponent.SetSizes` | src/lib/ngx-imageengine.component.ts:181-202 | the four size fields become `Sizing.SetSizes` of their old values and the measured rect |
| `ImageComponent.NgxImageengineComponent.BuildSource` | src/lib/ngx-imageengine.component.ts:243-259 | the source is the URL builder applied to host prefix + stripped path and to `Source.FinalDirectives`; the `directives` input is not changed |
| `ImageComponent.NgxImageengineComponent.NgAfterViewInit` | src/lib/ngx-imageengine.component.ts:117-123 | viewport measured, sizes derived, visibility tested against the new viewport, source built from the new sizes, then the readiness gate |
| `ImageComponent.NgxImageengineComponent.NgOnChanges` | src/lib/ngx-imageengine.component.ts:125-143 | on a first change, or a change to no watched input, nothing changes; otherwise sizes, visibility against the stored viewport, source and readiness are re-evaluated |
| `ImageComponent.NgxImageengineComponent.MaybeResize` | src/lib/ngx-imageengine.component.ts:154-159 | sizes derived, viewport re-measured, visibility and readiness re-evaluated; the source is not rebuilt |
| `ImageComponent.NgxImageengineComponent.MaybeScrolled` | src/lib/ngx-imageengine.component.ts:161-164 | only visibility and readiness are re-evaluated |
| `Scenarios.DerivedDefaultFitKeepsWidth` | src/lib/ngx-imageengine.component.spec.ts:69-95 | a measured 300x200 wrapper with no fit gives width 300 and no height, while the URL asks for 300x200 |
| `Scenarios.DerivedLetterboxAndStretchKeepBoth` | src/lib/ngx-imageengine.component.spec.ts:108-140 | a measured 300x200 wrapper with letterbox or stretch gives both 300 and 200, in the attributes and in the URL |
| `Scenarios.NoOptimizationClearsSizes` | src/lib/ngx-imageengine.component.spec.ts:142-156 | `no_optimization` without derived size gives no width or height attribute and hands the directives on as they are |
| `Scenarios.StripDomainScenario` | src/lib/ngx-imageengine.component.spec.ts:173-183 | stripping "https://some.domain" from "https://some.domain/test.jpg" leaves "/test.jpg", and the URL is "http://localhost/test.jpg" |
| `Scenarios.OnlyFirstWatchedInputDecides` | src/lib/ngx-imageengine.component.ts:127-137 | a first change of `directives` hides a later change of `host` in the same change set; changes to unwatched inputs never re-run the pipeline |

## Left out

- The DOM and the browser are not modelled. `getBoundingClientRect`, `window.innerWidth`
  and `clientWidth` become arguments. `setTimeout` and `clearTimeout` become the
  pending-timer map. `detectChanges` becomes a counter.
- Timer handles come from a counter kept by the component, not from the browser's global
  counter. Delays are recorded but time is not modelled: the caller chooses which pending
  timer fires and when.
- `Math.round` on fractional pixel sizes is not modelled. All sizes are whole numbers, and
  rounding is the identity on them. The rect's `top`, `bottom`, `left` and `right` and the
  window size are whole numbers too, whereas the browser reports fractions: a rect with
  `top` 0.4 and `bottom` 0 passes the vertical-presence test of
  src/lib/ngx-imageengine.component.ts:30, and the model has no such input. NaN and non-numeric directive values are not modelled
  either.
- `build_IE_url` from the imageengine-helpers package is not part of this model. It is a
  function value whose behaviour is left open.
- Angular input binding is not modelled. Callers assign the input fields directly. A change
  set records only each input's `firstChange` flag.
- `typeof host !== "string"` and `typeof path !== "string"` are modelled as an absent
  value. Other non-string values are not distinguished.
- Directive values other than `fit`, `width`, `height` and `no_optimization` are copied
  through as opaque strings.
- The `viewport` object, updated in place in the source, is a value that is replaced. No
  one else holds a reference to it.
- Debug logging (`console.log`, and `console.warn` about an unset host) is not modelled,
  because it has no effect on state.
- The class and style inputs, `alt`, the HTML template, the CSS string and the NgModule
  declaration in src/lib/ngx-imageengine.module.ts are left out, because they are
  framework wiring with no logic.
