/** What one evaluation of updateStickyStatus does, case by case, how a run of scroll
    events drives the direction detector, and a few worked scenarios. */
module StickyProperties {
  import opened Wrappers
  import opened Measure
  import opened FixItState
  import opened ScrollDirection
  import opened Sticky

  /** The direction a non-skipped evaluation reads: the stored position against the new
      placeholder top. */
  function DirectionOf(c: Controller, g: Snapshot): Direction
  {
    GetScrollDirection(c.(placeholderTop := g.placeholderTop)).direction
  }

  /** A poll tick that finds the document height unchanged changes nothing and reports
      whether the target is active or frozen. */
  lemma PollTickWithoutHeightChangeIsNoOp(cfg: Config, c: Controller, g: Snapshot)
    requires c.previousDocumentHeight == Some(g.documentHeight)
    ensures UpdateStickyStatus(cfg, c, g, true) == Evaluation(c, c.isActive || c.isFrozen)
  {
  }

  /** Right after a triggered evaluation, a poll tick on the same page is a no-op. */
  lemma PollAfterTriggerIsNoOp(cfg: Config, c: Controller, g: Snapshot, isAutoUpdate: bool)
    requires !SkipsPoll(c, g, isAutoUpdate) && Triggered(cfg, c, g)
    ensures var r := UpdateStickyStatus(cfg, c, g, isAutoUpdate);
      UpdateStickyStatus(cfg, r.ctl, g, true) == r
  {
  }

  /** A triggered evaluation remembers the placeholder top as the scroll position and
      the document height for the poll gate. */
  lemma TriggeredRecordsScrollState(cfg: Config, c: Controller, g: Snapshot, isAutoUpdate: bool)
    requires !SkipsPoll(c, g, isAutoUpdate) && Triggered(cfg, c, g)
    ensures UpdateStickyStatus(cfg, c, g, isAutoUpdate).ctl.scrollPosition == g.placeholderTop
    ensures UpdateStickyStatus(cfg, c, g, isAutoUpdate).ctl.previousDocumentHeight == Some(g.documentHeight)
  {
  }

  /** Once the whole target is above the offset, fixit--scrolled is present. */
  lemma FullyScrolledIsMarked(cfg: Config, c: Controller, g: Snapshot, isAutoUpdate: bool)
    requires !SkipsPoll(c, g, isAutoUpdate) && Triggered(cfg, c, g)
    requires g.placeholderTop + g.targetHeight < c.offset
    ensures ScrolledClass in UpdateStickyStatus(cfg, c, g, isAutoUpdate).ctl.classes
  {
  }

  /** A triggered target that fits the viewport ends up active. */
  lemma ShortTriggeredTargetIsActive(cfg: Config, c: Controller, g: Snapshot, isAutoUpdate: bool)
    requires !SkipsPoll(c, g, isAutoUpdate) && Triggered(cfg, c, g) && !TargetIsTall(c, g)
    ensures UpdateStickyStatus(cfg, c, g, isAutoUpdate).ctl.isActive
    ensures UpdateStickyStatus(cfg, c, g, isAutoUpdate).stuck
    ensures UpdateStickyStatus(cfg, c, g, isAutoUpdate).ctl.isFrozen == c.isFrozen
  {
  }

  /** The short path does not clear isFrozen: a frozen, inactive target that becomes
      short and triggered is active and still flagged frozen, without fixit--frozen. */
  lemma ShortPathKeepsFrozenFlag(cfg: Config, c: Controller, g: Snapshot, isAutoUpdate: bool)
    requires !SkipsPoll(c, g, isAutoUpdate) && Triggered(cfg, c, g) && !TargetIsTall(c, g)
    requires c.isFrozen && !c.isActive
    ensures var r := UpdateStickyStatus(cfg, c, g, isAutoUpdate).ctl;
      r.isActive && r.isFrozen && FrozenClass !in r.classes && ActiveClass in r.classes
  {
  }

  /** An untriggered evaluation of an active target runs setInactive. The result then
      only reports whether the (never cleared) frozen flag is set. */
  lemma UntriggeredActiveGoesInactive(cfg: Config, c: Controller, g: Snapshot, isAutoUpdate: bool)
    requires !SkipsPoll(c, g, isAutoUpdate) && !Triggered(cfg, c, g) && c.isActive
    ensures var r := UpdateStickyStatus(cfg, c, g, isAutoUpdate);
      && !r.ctl.isActive
      && r.ctl.classes * StatusClasses == {}
      && r.ctl.scrollPosition == 0.0
      && r.ctl.isFrozen == c.isFrozen && r.ctl.isDocked == c.isDocked
      && (r.stuck <==> c.isFrozen)
  {
  }

  /** An untriggered evaluation of an inactive target only stores the measurement:
      a frozen target stays frozen. */
  lemma UntriggeredInactiveOnlyMeasures(cfg: Config, c: Controller, g: Snapshot, isAutoUpdate: bool)
    requires !SkipsPoll(c, g, isAutoUpdate) && !Triggered(cfg, c, g) && !c.isActive
    ensures UpdateStickyStatus(cfg, c, g, isAutoUpdate) ==
      Evaluation(c.(placeholderTop := g.placeholderTop), c.isFrozen)
  {
  }

  /** Scrolling down with a tall target whose rounded bottom is inside the viewport makes
      an inactive target active and unfrozen; unless it docks at once (or leaves a stale
      dock) it sticks to the bottom with `top` cleared. */
  lemma TallDownFitSticksToBottom(cfg: Config, c: Controller, g: Snapshot, isAutoUpdate: bool)
    requires !SkipsPoll(c, g, isAutoUpdate) && Triggered(cfg, c, g) && TargetIsTall(c, g)
    requires g.placeholderTop < c.scrollPosition
    requires Round(g.targetBottom) <= MaxInt(g.innerHeight, g.clientHeight)
    requires !c.isActive
    ensures var r := UpdateStickyStatus(cfg, c, g, isAutoUpdate).ctl;
      && r.isActive && !r.isFrozen && FrozenClass !in r.classes
      && (ShouldDock(cfg, c, g) ==> r.isDocked && BottomClass !in r.classes && r.top == Unset)
      && (!ShouldDock(cfg, c, g) && !(cfg.containedInParent && c.isDocked && g.targetTop >= c.offset) ==>
            BottomClass in r.classes && r.top == Unset)
  {
    var m := c.(placeholderTop := g.placeholderTop);
    assert DirectionOf(c, g) == Down;
  }

  /** Scrolling up (or not moving) with a tall target whose rounded top is at or below
      the offset makes an inactive target active and unfrozen. */
  lemma TallUpFitActivates(cfg: Config, c: Controller, g: Snapshot, isAutoUpdate: bool)
    requires !SkipsPoll(c, g, isAutoUpdate) && Triggered(cfg, c, g) && TargetIsTall(c, g)
    requires c.scrollPosition <= g.placeholderTop
    requires Round(g.targetTop) as real >= c.offset
    requires !c.isActive
    ensures var r := UpdateStickyStatus(cfg, c, g, isAutoUpdate).ctl;
      r.isActive && !r.isFrozen && FrozenClass !in r.classes && BottomClass !in r.classes - c.classes
  {
    assert DirectionOf(c, g) != Down;
  }

  /** A tall, active, undocked target whose leading edge does not fit and that should
      not dock is frozen: no longer active, pinned at the measured distance. */
  lemma TallNoFitFreezes(cfg: Config, c: Controller, g: Snapshot, isAutoUpdate: bool)
    requires !SkipsPoll(c, g, isAutoUpdate) && Triggered(cfg, c, g) && TargetIsTall(c, g)
    requires !Fits(c, g, DirectionOf(c, g))
    requires c.isActive && !c.isDocked && !ShouldDock(cfg, c, g)
    ensures var r := UpdateStickyStatus(cfg, c, g, isAutoUpdate);
      && !r.ctl.isActive && r.ctl.isFrozen && r.stuck
      && FrozenClass in r.ctl.classes && ActiveClass !in r.ctl.classes
      && r.ctl.top == Px(g.frozenTop)
  {
  }

  /** A tall target that is active and whose leading edge fits stays exactly as the
      direction bookkeeping and the containment check leave it: no freezing. */
  lemma TallFitKeepsActive(cfg: Config, c: Controller, g: Snapshot, isAutoUpdate: bool)
    requires !SkipsPoll(c, g, isAutoUpdate) && Triggered(cfg, c, g) && TargetIsTall(c, g)
    requires Fits(c, g, DirectionOf(c, g))
    requires c.isActive
    ensures var r := UpdateStickyStatus(cfg, c, g, isAutoUpdate).ctl;
      r.isActive && r.isFrozen == c.isFrozen
  {
  }

  /** Docking is only ever entered with all three docking conditions true. */
  lemma DockingNeedsAllConditions(cfg: Config, c: Controller, g: Snapshot, isAutoUpdate: bool)
    requires !c.isDocked
    requires UpdateStickyStatus(cfg, c, g, isAutoUpdate).ctl.isDocked
    ensures cfg.containedInParent
    ensures g.parentBottom <= g.clientHeight as real
    ensures g.targetBottom >= g.parentBottom
    ensures g.targetTop <= c.offset
  {
  }

  /** Without a parent container, a tall, active, undocked target whose leading edge
      does not fit reaches the docking query of the tall branch, which as written
      throws; the corrected query says "do not dock" and the target freezes. */
  lemma NoParentTallTargetFreezes(cfg: Config, c: Controller, g: Snapshot, isAutoUpdate: bool)
    requires !cfg.containedInParent
    requires !SkipsPoll(c, g, isAutoUpdate) && Triggered(cfg, c, g) && TargetIsTall(c, g)
    requires !Fits(c, g, DirectionOf(c, g))
    requires c.isActive && !c.isDocked
    ensures ShouldDockAsWritten(cfg, c, g).TypeError?
    ensures !ShouldDock(cfg, c, g)
    ensures SetFrozenAsWritten(cfg, c.(isActive := false), g).TypeError?
    ensures var r := UpdateStickyStatus(cfg, c, g, isAutoUpdate).ctl;
      r.isFrozen && !r.isActive && FrozenClass in r.classes
  {
    TallNoFitFreezes(cfg, c, g, isAutoUpdate);
  }

  /** Placing and containing the target leave the detector's part of the state alone. */
  lemma PlacementKeepsDetectorView(cfg: Config, c: Controller, g: Snapshot, dir: Direction)
    ensures DetectorView(PlaceTarget(cfg, c, g, dir)) == DetectorView(c)
    ensures DetectorView(ContainInParent(cfg, c, g)) == DetectorView(c)
  {
    var p, k := PlaceTarget(cfg, c, g, dir), ContainInParent(cfg, c, g);
    forall x | x in DetectorClasses
      ensures (x in p.classes <==> x in c.classes) && (x in k.classes <==> x in c.classes)
    {
      assert x !in {ActiveClass, FrozenClass, BottomClass, DockedClass};
    }
    assert p.classes * DetectorClasses == c.classes * DetectorClasses;
    assert k.classes * DetectorClasses == c.classes * DetectorClasses;
  }

  /** With direction updates on, a triggered evaluation does to the detector's part of
      the state exactly what one detector tick to the new placeholder top does. */
  lemma TriggeredEvaluationDrivesDetector(cfg: Config, c: Controller, g: Snapshot, isAutoUpdate: bool)
    requires cfg.enableDirectionUpdates
    requires !SkipsPoll(c, g, isAutoUpdate) && Triggered(cfg, c, g)
    ensures DetectorView(UpdateStickyStatus(cfg, c, g, isAutoUpdate).ctl)
         == DetectorView(ScrollTick(cfg, c, g.placeholderTop))
  {
    var measured := c.(placeholderTop := g.placeholderTop);
    var reading := GetScrollDirection(measured);
    var recorded := reading.ctl.(previousDocumentHeight := Some(g.documentHeight));
    var scrolled := if g.placeholderTop + g.targetHeight < c.offset then SetFullyScrolled(recorded) else recorded;
    forall x | x in DetectorClasses
      ensures x in scrolled.classes <==> x in reading.ctl.classes
    {
      assert x != ScrolledClass;
    }
    assert scrolled.classes * DetectorClasses == reading.ctl.classes * DetectorClasses;
    RequestRespectsView(cfg, scrolled, reading.ctl, reading.direction);
    var requested := RequestScrollDirectionUpdate(cfg, scrolled, reading.direction);
    var placed := PlaceTarget(cfg, requested, g, reading.direction);
    PlacementKeepsDetectorView(cfg, requested, g, reading.direction);
    PlacementKeepsDetectorView(cfg, placed, g, reading.direction);
  }

  /** What reaches the controller between two looks at the page: a scroll event that
      evaluates the page as the snapshot shows it, or the debounced direction timer
      firing after scrolling paused. */
  datatype PageEvent = Scroll(g: Snapshot) | Fire

  function PageStep(cfg: Config, c: Controller, e: PageEvent): (r: Controller)
    ensures Inv(c) ==> Inv(r)
    ensures r.offset == c.offset
  {
    match e
    case Scroll(g) => UpdateStickyStatus(cfg, c, g, false).ctl
    case Fire => DirectionTimerFires(cfg, c)
  }

  /** The controller after a run of page events. */
  function PageRun(cfg: Config, c: Controller, evs: seq<PageEvent>): (r: Controller)
    ensures Inv(c) ==> Inv(r)
    ensures r.offset == c.offset
    decreases |evs|
  {
    if |evs| == 0 then c else PageRun(cfg, PageStep(cfg, c, evs[0]), evs[1..])
  }

  /** The detector events a run of page events amounts to. */
  function DetectorEvent(e: PageEvent): DirectionEvent
  {
    match e
    case Scroll(g) => Tick(g.placeholderTop)
    case Fire => TimerFires
  }

  function DetectorEvents(evs: seq<PageEvent>): seq<DirectionEvent>
  {
    seq(|evs|, i requires 0 <= i < |evs| => DetectorEvent(evs[i]))
  }

  /** A run of triggered scroll events and timer firings, with direction updates on,
      leaves the detector's part of the state exactly as the matching detector events do. */
  lemma {:induction false} EvaluationsDriveDetector(cfg: Config, c: Controller, evs: seq<PageEvent>)
    requires cfg.enableDirectionUpdates
    requires forall i :: 0 <= i < |evs| && evs[i].Scroll? ==> Triggered(cfg, c, evs[i].g)
    ensures DetectorView(PageRun(cfg, c, evs)) == DetectorView(Replay(cfg, c, DetectorEvents(evs)))
    decreases |evs|
  {
    if |evs| > 0 {
      var next := PageStep(cfg, c, evs[0]);
      var step := Step(cfg, c, DetectorEvent(evs[0]));
      match evs[0] {
        case Scroll(g) =>
          TriggeredEvaluationDrivesDetector(cfg, c, g, false);
        case Fire =>
          assert next == step;
      }
      assert next.offset == c.offset;
      assert forall i :: 0 <= i < |evs[1..]| && evs[1..][i].Scroll? ==> Triggered(cfg, next, evs[1..][i].g) by {
        forall i | 0 <= i < |evs[1..]| && evs[1..][i].Scroll?
          ensures Triggered(cfg, next, evs[1..][i].g)
        {
          assert evs[1..][i] == evs[i + 1];
          assert Triggered(cfg, c, evs[i + 1].g);
        }
      }
      EvaluationsDriveDetector(cfg, next, evs[1..]);
      assert DetectorEvents(evs)[0] == DetectorEvent(evs[0]);
      assert DetectorEvents(evs)[1..] == DetectorEvents(evs[1..]);
      ReplayRespectsView(cfg, next, step, DetectorEvents(evs[1..]));
    }
  }

  /** Jitter during real scrolling: when every scroll event is triggered and leaves the
      placeholder inside one threshold-wide band that also holds the reference position,
      no run of scroll events and timer firings changes the committed direction or the
      direction classes. */
  lemma ScrollJitterNeverToggles(cfg: Config, c: Controller, evs: seq<PageEvent>, lo: real)
    requires cfg.enableDirectionUpdates
    requires forall i :: 0 <= i < |evs| && evs[i].Scroll? ==> Triggered(cfg, c, evs[i].g)
    requires lo <= c.prevScrollPosition.ValueOr(0.0) <= lo + cfg.positionThreshold
    requires c.directionTimer.Some? ==>
      lo <= c.newScrollPosition <= lo + cfg.positionThreshold && lo <= c.placeholderTop <= lo + cfg.positionThreshold
    requires forall i :: 0 <= i < |evs| && evs[i].Scroll? ==> lo <= evs[i].g.placeholderTop <= lo + cfg.positionThreshold
    ensures PageRun(cfg, c, evs).prevScrollDirection == c.prevScrollDirection
    ensures PageRun(cfg, c, evs).classes * DetectorClasses == c.classes * DetectorClasses
  {
    EvaluationsDriveDetector(cfg, c, evs);
    var ticks := DetectorEvents(evs);
    assert forall i :: 0 <= i < |ticks| && ticks[i].Tick? ==> lo <= ticks[i].top <= lo + cfg.positionThreshold by {
      forall i | 0 <= i < |ticks| && ticks[i].Tick?
        ensures lo <= ticks[i].top <= lo + cfg.positionThreshold
      {
        assert ticks[i] == DetectorEvent(evs[i]);
      }
    }
    JitterNeverToggles(cfg, c, ticks, lo);
  }

  /** A page with no parent container and a 1200px target in an 800px viewport, offset 0. */
  const TallConfig := Config(
    containedInParent := false, useOffsetOnTarget := false, enableDirectionUpdates := false,
    respondToParent := false, positionThreshold := 75.0, directionThrottle := 20)

  /** Scrolled down until the target's bottom (700) is in the viewport. */
  const BottomReached := Snapshot(
    placeholderTop := -500.0, targetTop := -500.0, targetBottom := 700.0, targetHeight := 1200.0,
    parentBottom := 0.0, parentHeight := 0.0, frozenTop := 0.0,
    clientHeight := 800, innerHeight := 800, documentHeight := 3000)

  /** Then scrolled back up by 100px while the target is fixed to the viewport's bottom. */
  const ScrolledBackUp := Snapshot(
    placeholderTop := -400.0, targetTop := -400.0, targetBottom := 800.0, targetHeight := 1200.0,
    parentBottom := 0.0, parentHeight := 0.0, frozenTop := 400.0,
    clientHeight := 800, innerHeight := 800, documentHeight := 3000)

  /** From a fresh instance, two scroll events reach the throwing docking query: the
      first makes the tall target active at the bottom, the second (scrolling up) finds
      its top above the offset while it is active and undocked. */
  lemma TallTargetWithoutParentReachesThrow()
    ensures var first := UpdateStickyStatus(TallConfig, Initial(0.0), BottomReached, false).ctl;
      && first.isActive && BottomClass in first.classes && !first.isDocked
      && DirectionOf(first, ScrolledBackUp) == Up
      && !Fits(first, ScrolledBackUp, Up)
      && ShouldDockAsWritten(TallConfig, first, ScrolledBackUp).TypeError?
      && SetFrozenAsWritten(TallConfig, first.(isActive := false), ScrolledBackUp).TypeError?
      && UpdateStickyStatus(TallConfig, first, ScrolledBackUp, false).ctl.isFrozen
  {
    var c0 := Initial(0.0);
    assert DirectionOf(c0, BottomReached) == Down;
    assert Round(700.0) == 700;
    TallDownFitSticksToBottom(TallConfig, c0, BottomReached, false);
    var first := UpdateStickyStatus(TallConfig, c0, BottomReached, false).ctl;
    TriggeredRecordsScrollState(TallConfig, c0, BottomReached, false);
    assert first.scrollPosition == -500.0;
    assert DirectionOf(first, ScrolledBackUp) == Up;
    assert Round(-400.0) == -400;
    NoParentTallTargetFreezes(TallConfig, first, ScrolledBackUp, false);
  }

  /** A 50px target in an 800px viewport with offset 0 and no parent is never tall:
      the placeholder moving from 100 to -10 turns it active, never frozen. */
  lemma ShortTargetActivatesOnce(cfg: Config, c: Controller)
    requires !cfg.containedInParent
    requires c == Initial(0.0)
    ensures var g1 := Snapshot(100.0, 100.0, 150.0, 50.0, 0.0, 0.0, 0.0, 800, 800, 3000);
      var g2 := Snapshot(-10.0, -10.0, 40.0, 50.0, 0.0, 0.0, 0.0, 800, 800, 3000);
      var first := UpdateStickyStatus(cfg, c, g1, false);
      var second := UpdateStickyStatus(cfg, first.ctl, g2, false);
      && !first.ctl.isActive && !first.stuck
      && second.ctl.isActive && !second.ctl.isFrozen && FrozenClass !in second.ctl.classes
  {
  }
}
