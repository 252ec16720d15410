# born-fixit: the sticky-element state machine in Dafny

born-fixit's `FixIt` class makes one DOM element "sticky". On every scroll event and
every 100ms poll tick, `updateStickyStatus` measures the placeholder, the target and an
optional parent container. It then decides whether the target is inactive (in the flow),
active (`position: fixed` at the offset or at the viewport's bottom), frozen (a tall target
pinned where it is) or docked (parked at the bottom of its parent). When enabled, a
scroll-direction detector adds `fixit--scroll-up` / `fixit--scroll-down` classes. The
detector is throttled by a call counter, debounced by a timer and filtered by a jitter
threshold.

This project models that logic as pure functions over immutable records:

- `measure.dfy` (module `Measure`): the geometry snapshot one evaluation reads;
  JavaScript's `Math.round` on real numbers; the offset summed from the offset elements.
- `fixit_state.dfy` (module `FixItState`): the instance fields as a `Controller` record.
  The CSS state classes form a `set<StateClass>`, and the inline `top` is a value. It also
  holds the invariant `Inv`, which ties the flags to the classes.
- `scroll_direction.dfy` (module `ScrollDirection`): `getScrollDirection`,
  `requestScrollDirectionUpdate`, the debounced timeout body as the explicit step
  `DirectionTimerFires`, the threshold gate and `updateScrollDirection`.
- `sticky.dfy` (module `Sticky`): `updateStickyStatus` and every helper it calls.
- `sticky_properties.dfy` (module `StickyProperties`): what one evaluation does, case by
  case; how a run of triggered scroll events drives the direction detector; and a few
  worked scenarios.
- `lifecycle.dfy` (module `Lifecycle`): the `isEnabled` toggle of `enableSticky`. The scroll
  listener, the poll intervals and the pending timeout are counted abstractly.
- `options.dfy` (module `Options`): how the constructor resolves the two direction
  knobs.
- `wrappers.dfy` (module `Wrappers`): `Option` for fields that may be `undefined`, and
  `Thrown` for a call that throws.

Every state change the source performs preserves `Inv`. That covers an evaluation, the
timer firing, the lifecycle steps, scroll events, poll ticks and whole runs of them.
`SetFrozen` preserves it only for an inactive controller, which is how the source calls
it. `Inv` says: `fixit--active` is present exactly while `isActive` holds, `fixit--frozen` and `fixit--bottom` appear only together with their flags, and a
`fixit--scroll-up/down` class appears only for the committed direction. So
`fixit--active` and `fixit--frozen` are never both present.

The model keeps the code's quirks:

- `setInactive` clears neither `isFrozen` nor `isDocked`.
- An untriggered evaluation of a frozen, inactive target changes nothing.
- The short-target path does not reset `isFrozen`.

No "active-or-frozen iff triggered" invariant is claimed, because the code does not keep
one.

A direction is `Up`, `Down` or `NoDirection`. `NoDirection` is the `undefined` that
`getScrollDirection` returns when nothing moved. In the tall branch the `else` of
`scrollDirection === 'down'` covers both "up" and `undefined`, and `Fits` models exactly
that. An undefined direction that passes the throttle and threshold is committed like any
other. It adds the class that the template string `fixit--scroll-${undefined}` produces,
modelled as `ScrollClass(NoDirection)`.

The model follows the code, not what its names and comments might suggest, in these
points:

- On going inactive, only the committed direction, the direction timer and the stored
  scroll position are reset. The call counter and the last commit position are not.
- Docking always clears `top`. It never pins `top` to the offset.
- The threshold option is spelled `scrollPositionThereshold`.
- "Active or frozen iff triggered" does not hold. See the quirks above.

There is one exception. Without a parent container, the tall-target path of the code
throws a TypeError (see "## Findings"). There the main transition uses the corrected
docking query, and `SetFrozen` pins the target at the snapshot's `frozenTop`.

The direction detector is stated twice: on its own, as ticks and timer firings
(`ScrollDirection.Replay`), and inside `updateStickyStatus`.
`StickyProperties.EvaluationsDriveDetector` covers any run of triggered scroll events
and direction-timer firings. It proves that such a run leaves the detector's fields and
classes exactly as the matching ticks and timer firings do. So the detector lemmas,
such as the jitter bound, hold for such runs of real scrolling as well.

## Model

| member | source | states |
|---|---|---|
| `Measure.Round` | src/born-fixit.js:169 | Math.round gives the integer within half a unit, with halves rounded up |
| `Measure.OffsetValue` | src/born-fixit.js:88-100 | a fixed offset is kept as it is; an element offset is a whole number of pixels, within half a pixel per element of the elements' exact total height |
| `Measure.GetOffsetValue` | src/born-fixit.js:88-100 | with offset elements, the offset is the sum of their rounded heights in list order; otherwise it is the current offset |
| `Measure.OffsetApproximatesHeights` | src/born-fixit.js:91-94 | the summed offset is within half a pixel per element of the exact total height |
| `Measure.WholePixelHeightsAddExactly` | src/born-fixit.js:93 | whole-pixel heights sum exactly |
| `Measure.OffsetIsAdditive` | src/born-fixit.js:91-94 | the offset of a split element list is the sum of the parts' offsets |
| `Measure.TwoHeaderOffset` | src/born-fixit.js:88-100 | offset elements 40px and 30px high give offset 70 |
| `FixItState.Initial` | src/born-fixit.js:3-16 | a new instance is inactive, unfrozen, undocked, has no classes, satisfies the invariant and has the constructor's offset |
| `FixItState.ActiveAndFrozenClassesExclusive` | src/born-fixit.js:271-348 | in every state satisfying the invariant, fixit--active and fixit--frozen are never both present, nor scroll-up and scroll-down |
| `ScrollDirection.GetScrollDirection` | src/born-fixit.js:397-411 | "down" iff the stored position is greater than the new top, "up" iff less than, none iff equal; the stored position becomes the new top and nothing else changes |
| `ScrollDirection.SecondReadingWithoutMovementHasNoDirection` | src/born-fixit.js:401-408 | reading again without movement reports no direction and changes nothing |
| `ScrollDirection.UpdateScrollDirection` | src/born-fixit.js:458-477 | committing the current direction is a no-op; a new direction adds its class, removes the previous one's, adds scroll-direction-change iff a previous direction existed, and records the new direction and position |
| `ScrollDirection.UpdateScrollDirectionIdempotent` | src/born-fixit.js:459 | committing the same direction twice equals committing it once |
| `ScrollDirection.DistanceFromLastCommit` | src/born-fixit.js:447 | the distance is non-negative, is the difference between the newest position and the last commit position (0 when undefined) in one order or the other, and is 0 exactly when the two are equal |
| `ScrollDirection.CommitIfPastThreshold` | src/born-fixit.js:444-452 | a commit is attempted only when the distance from the last commit position (0 when undefined) exceeds the threshold |
| `ScrollDirection.RequestScrollDirectionUpdate` | src/born-fixit.js:417-438 | the counter resets to 0 exactly when it reaches the throttle and stays below a positive throttle; below the throttle or the threshold, direction and classes are unchanged; the timer is re-armed with this call's direction |
| `ScrollDirection.DirectionTimerFires` | src/born-fixit.js:433-437 | the settle step commits only beyond the threshold and always makes the current position the new reference |
| `ScrollDirection.JitterNeverToggles` | src/born-fixit.js:444-452 | if every position stays inside one threshold-wide band, no run of ticks and timer firings changes the direction or its classes |
| `ScrollDirection.BelowThrottleNoCommit` | src/born-fixit.js:418-428 | ticks that do not bring the counter to the throttle never commit, and the counter grows by one per tick |
| `ScrollDirection.RapidScrollCommitsOnceAtThrottle` | src/born-fixit.js:417-452 | with throttle 20 and threshold 75, 25 rapid 5px-down ticks commit "down" once, at the 20th tick, and the remaining ticks change nothing |
| `ScrollDirection.UpdateScrollDirectionRespectsView` | src/born-fixit.js:458-477 | a commit reads and writes only the detector's fields and its direction classes: controllers that agree there still agree after it |
| `ScrollDirection.RequestRespectsView` | src/born-fixit.js:417-438 | the same for a request, counter and threshold gate included |
| `ScrollDirection.ReplayRespectsView` | src/born-fixit.js:397-477 | the same for any run of ticks and timer firings |
| `Sticky.SetTargetPos` | src/born-fixit.js:245-253 | `top` is the offset exactly when not resetting and useOffsetOnTarget is set; otherwise it is cleared |
| `Sticky.SetFullyScrolled` | src/born-fixit.js:479-483 | fixit--scrolled is present afterwards and no other class changes |
| `Sticky.SetActive` | src/born-fixit.js:283-305 | active with fixit--active and without fixit--frozen; to the bottom it adds fixit--bottom and clears `top`, otherwise `top` is the offset exactly when useOffsetOnTarget is set; isFrozen and isDocked unchanged |
| `Sticky.SetFrozen` | src/born-fixit.js:271-277 | frozen with fixit--frozen, without fixit--active and fixit--bottom, pinned at the snapshot's `frozenTop` |
| `Sticky.SetFrozenAsWritten` | src/born-fixit.js:271-277 | without a parent container the call throws; otherwise it is `SetFrozen` |
| `Sticky.RemoveDirectionUpdates` | src/born-fixit.js:338-348 | with direction updates on, the three direction classes, the committed direction and the timer are dropped; otherwise nothing changes |
| `Sticky.SetInactive` | src/born-fixit.js:308-336 | inactive, with no active/bottom/docked/frozen/scrolled class and scroll position 0; isFrozen, isDocked, the counter and the commit position are kept; direction state is dropped only when direction updates are on |
| `Sticky.ShouldDockAsWritten` | src/born-fixit.js:222-226 | without a parent container the call throws; otherwise it is the conjunction parent bottom <= client height, target bottom >= parent bottom, target top <= offset |
| `Sticky.ShouldDock` | src/born-fixit.js:222-226 | agrees with the source wherever the source returns, and says "do not dock" where it throws |
| `Sticky.CanContainInParent` | src/born-fixit.js:140 | always true without a parent container; with one, true exactly when the target is shorter than the parent |
| `Sticky.Triggered` | src/born-fixit.js:146 | never true while the placeholder's top is at or below the offset, nor when a parent container is no taller than the target; without a parent, or with a parent taller than the target, it is exactly "placeholder above the offset" |
| `Sticky.TargetIsTall` | src/born-fixit.js:387-389 | true exactly when the target is taller than the room between the offset and the viewport's bottom; with a non-negative offset, any target taller than the viewport is tall |
| `Sticky.Fits` | src/born-fixit.js:168-180 | scrolling down, the bottom fits exactly when it is less than half a pixel below max(innerHeight, clientHeight); otherwise the top fits exactly when it is at most half a pixel above the offset rounded up to a whole pixel, which for a whole-pixel offset is the offset itself |
| `Sticky.SkipsPoll` | src/born-fixit.js:138 | a scroll event, or a poll before any recorded height, never skips; a later poll skips exactly when the document height is the one recorded |
| `Sticky.SetDocked` | src/born-fixit.js:228-233 | docked with fixit--docked, without fixit--bottom, `top` cleared |
| `Sticky.SetUndocked` | src/born-fixit.js:235-239 | undocked, fixit--docked removed, `top` at the offset when configured |
| `Sticky.UndockAfterDock` | src/born-fixit.js:228-239 | undocking right after docking restores the undocked state except that fixit--bottom is lost |
| `Sticky.ContainInParent` | src/born-fixit.js:209-220 | nothing changes without a parent container or while inactive; docks when shouldDock holds; undocks a docked target whose top is at or below the offset; never changes isActive or isFrozen |
| `Sticky.PlaceTarget` | src/born-fixit.js:161-191 | a short target becomes active; a tall one becomes active and unfrozen when its leading edge fits (bottom-aligned when scrolling down); an active, undocked, non-docking tall target that does not fit is frozen; everything else is left alone |
| `Sticky.TriggeredUpdate` | src/born-fixit.js:146-193 | a triggered evaluation records the scroll position and document height and marks a fully scrolled target |
| `Sticky.UpdateStickyStatus` | src/born-fixit.js:132-200 | returns isActive or isFrozen; a skipped poll changes nothing; preserves the invariant and keeps the call counter below a positive throttle |
| `StickyProperties.PollTickWithoutHeightChangeIsNoOp` | src/born-fixit.js:132-138 | a poll tick with an unchanged document height changes nothing and returns isActive or isFrozen |
| `StickyProperties.PollAfterTriggerIsNoOp` | src/born-fixit.js:138-149 | after a triggered evaluation, a poll tick on the same page changes nothing |
| `StickyProperties.TriggeredRecordsScrollState` | src/born-fixit.js:146-149 | a triggered evaluation stores the placeholder top as the scroll position and the document height |
| `StickyProperties.FullyScrolledIsMarked` | src/born-fixit.js:151-153 | when the whole target is above the offset, fixit--scrolled is present afterwards |
| `StickyProperties.ShortTriggeredTargetIsActive` | src/born-fixit.js:139-164 | not a skipped poll, triggered and not tall: afterwards the target is active |
| `StickyProperties.ShortPathKeepsFrozenFlag` | src/born-fixit.js:161-164 | a frozen, inactive target taking the short path becomes active and stays flagged frozen without fixit--frozen |
| `StickyProperties.UntriggeredActiveGoesInactive` | src/born-fixit.js:194-195 | untriggered and active: setInactive runs, isActive is false, the status classes are gone, and the result is the frozen flag |
| `StickyProperties.UntriggeredInactiveOnlyMeasures` | src/born-fixit.js:194-199 | untriggered and inactive: only the measurement is stored, so a frozen target stays frozen |
| `StickyProperties.TallDownFitSticksToBottom` | src/born-fixit.js:168-173 | tall, scrolling down, rounded bottom within max(innerHeight, clientHeight), inactive: active, unfrozen, bottom-aligned with `top` cleared unless docking intervenes |
| `StickyProperties.TallUpFitActivates` | src/born-fixit.js:179-184 | tall, not scrolling down, rounded top at or below the offset, inactive: active and unfrozen |
| `StickyProperties.TallNoFitFreezes` | src/born-fixit.js:174-189 | tall, leading edge not fitting, active, undocked and not docking: no longer active, frozen with fixit--frozen, pinned at the snapshot's `frozenTop` |
| `StickyProperties.TallFitKeepsActive` | src/born-fixit.js:168-185 | a tall active target whose leading edge fits stays active with its frozen flag |
| `StickyProperties.DockingNeedsAllConditions` | src/born-fixit.js:214-225 | an evaluation that docks needs a parent container and all three docking conditions |
| `StickyProperties.NoParentTallTargetFreezes` | src/born-fixit.js:174-188 | without a parent container, a tall, active, undocked target that does not fit reaches a docking query that throws as written, and the setFrozen after it throws as well; as corrected, it freezes |
| `StickyProperties.TallTargetWithoutParentReachesThrow` | src/born-fixit.js:166-188 | from a fresh instance, two scroll events with a 1200px target in an 800px viewport reach the throwing query |
| `StickyProperties.PlacementKeepsDetectorView` | src/born-fixit.js:161-220 | placing and containing the target change none of the detector's fields or direction classes |
| `StickyProperties.TriggeredEvaluationDrivesDetector` | src/born-fixit.js:146-159 | with direction updates on, a triggered evaluation leaves the detector's fields and direction classes exactly as one detector tick to the new placeholder top does |
| `StickyProperties.EvaluationsDriveDetector` | src/born-fixit.js:146-159 | a run of triggered scroll events and direction-timer firings leaves the detector's fields and direction classes exactly as the matching run of ticks and timer firings does |
| `StickyProperties.ScrollJitterNeverToggles` | src/born-fixit.js:146-159 | triggered scroll events whose placeholder stays in one threshold-wide band, together with the reference position, interleaved with any timer firings, never change the committed direction or the direction classes |
| `StickyProperties.ShortTargetActivatesOnce` | src/born-fixit.js:139-164 | a 50px target in an 800px viewport stays inactive at placeholder top 100 and becomes active, never frozen, at -10 |
| `Lifecycle.Construct` | src/born-fixit.js:3-37 | a new instance is disabled, unwired, satisfies both invariants and has its enable timeout pending |
| `Lifecycle.EnableSticky` | src/born-fixit.js:39-42 | enableSticky leaves one pending timeout and changes nothing else |
| `Lifecycle.InitialSetup` | src/born-fixit.js:103-127 | the scroll position starts at 0 and fixit--respond-to-parent is added exactly when configured |
| `Lifecycle.ResizeTimerFires` | src/born-fixit.js:42-66 | the offset is recomputed; enabling sets up once, adds one interval and the scroll listener, and evaluates once; disabling runs setInactive and removes both; otherwise only the offset changes; the wiring invariant is kept |
| `Lifecycle.ScrollEvent` | src/born-fixit.js:53 | a scroll event evaluates only while the listener is attached; it preserves the invariant and keeps the counter below the throttle |
| `Lifecycle.PollTick` | src/born-fixit.js:52 | a poll tick evaluates as an automatic update only while an interval runs; it preserves the invariant and keeps the counter below the throttle |
| `Lifecycle.DisabledIgnoresEvents` | src/born-fixit.js:58-65 | a disabled instance ignores scroll events and poll ticks |
| `Lifecycle.EnableTwiceWiresOnce` | src/born-fixit.js:45-56 | enabling twice in a row leaves exactly one poll interval and the scroll listener |
| `Lifecycle.DisableTearsDown` | src/born-fixit.js:58-65 | disabling leaves the instance inactive, without active or frozen class, with no interval and no listener |
| `Options.ConfigFromOptionsAsWritten` | src/born-fixit.js:20-27 | each knob is `option \|\| default`: a given non-zero value is used, and an absent or explicit 0 value becomes the default 20 or 75; the four booleans are taken as given; wherever neither knob is an explicit 0 it agrees with `ConfigFromOptions` |
| `Options.ConfigFromOptions` | src/born-fixit.js:25-27 | a given throttle or threshold, 0 included, is used; an absent one takes the default |
| `Options.ZeroKnobsIgnoredAsWritten` | src/born-fixit.js:23-27 | with both knobs set to 0 as written, a first 10px move does not commit a direction |
| `Options.ZeroKnobsCommitEveryMove` | src/born-fixit.js:25-26 | with both knobs set to 0 as intended, every call that moved commits its direction |

## Left out

- `destroySticky` (lines 72-82) is not modelled. It is listener teardown plus placeholder removal.
- `respondTo` (lines 258-265) is not modelled. It computes a width from floating-point computed padding.
- Placeholder creation, removal and `setPlaceholderProps` are not modelled. They only mutate the DOM.
- `publishEvent`, the custom events and the user callbacks are not modelled. They are foreign calls with no effect on the state.
- JavaScript numbers are modelled as exact reals. Sums such as `top + targetHeight` (line 151) and `Math.round` are not rounded to doubles as the browser rounds them.
- Live DOM measurement is not modelled: `getBoundingClientRect`, `getDocumentHeight` and `clientHeight` come in through one `Snapshot` per evaluation. The source measures the target's rect again after changing classes. The model assumes the layout does not move within one evaluation.
- The frozen `top` (line 273) is the snapshot field `frozenTop`. It is not computed from the parent's and the target's tops. Without a parent container the source has no such distance (it throws); the corrected `SetFrozen` then uses whatever `frozenTop` the page supplies.
- Sticky.PlaceTarget: on the no-parent tall path it uses the corrected docking query and the corrected setFrozen, where the source throws a TypeError (see "## Findings"). With a parent container it follows the source.
- Sticky.UpdateStickyStatus: inherits that correction from `PlaceTarget`; as written, the same evaluation ends in a TypeError, modelled by `Sticky.ShouldDockAsWritten` and `Sticky.SetFrozenAsWritten`.
- StickyProperties.TallNoFitFreezes: without a parent container it states the corrected behaviour; the source throws there.
- Sticky.SetFrozenAsWritten: does not model that `isFrozen` is already set when the call throws, because the model does not carry state through an exception.
- Timers, intervals and listeners are explicit steps and counters: `EnableSticky`, `ResizeTimerFires`, `DirectionTimerFires`, `PollTick` and `ScrollEvent`. The 100ms, 150ms and `scrollDirectionWait` delays are not modelled.
- The `enabled` predicate is a boolean parameter of `ResizeTimerFires`.
- The `fixit:updateScrollDirection` event may carry any string. The model handles only up, down and undefined, through `UpdateScrollDirection`.
- The constructor's offset is assumed numeric or a NodeList. A numeric string or another kind of collection (lines 11-16) is not modelled.
- Construction without a resolvable target is not modelled, because it then does nothing.
- The offset recomputed by the enable timeout uses the pure function `Measure.OffsetValue`. The loop form `Measure.GetOffsetValue` is proved equal to it.

## Findings

| source | as written | input that shows it | evidently intended | confidence | as-written member | corrected member |
|---|---|---|---|---|---|---|
| src/born-fixit.js:174-188 | `shouldDock` reads `this.parentContainer.getBoundingClientRect()` even when `parentContainer` is `false`, so the tall branch throws a TypeError; `setFrozen` (line 273) reads the same rect, so correcting `shouldDock` alone still throws | no containedInParent; a 1200px target in an 800px viewport at offset 0; active at the bottom, then scrolled up 100px | without a parent nothing can dock, so the target freezes. The code itself expects a missing parent: `canContainInParent` (line 140) and `containInParent` (line 210) both test `this.parentContainer` first. The corrected `setFrozen` pins at the `frozenTop` the page supplies | high, not executed | `StickyProperties.TallTargetWithoutParentReachesThrow` (with `Sticky.ShouldDockAsWritten` and `Sticky.SetFrozenAsWritten`) | `StickyProperties.NoParentTallTargetFreezes` (with `Sticky.ShouldDock`) |
| src/born-fixit.js:23-27 | `option \|\| default` replaces an explicit 0 throttle or threshold by 20 or 75, although the comment says 0 makes the direction change on every scroll | scrollDirectionThrottle 0 and scrollPositionThereshold 0, then a first 10px move | a given 0 is used, and every move commits | medium, not executed | `Options.ZeroKnobsIgnoredAsWritten` (with `Options.ConfigFromOptionsAsWritten`) | `Options.ZeroKnobsCommitEveryMove` (with `Options.ConfigFromOptions`) |
