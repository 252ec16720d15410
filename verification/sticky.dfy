/** updateStickyStatus and the helpers it calls: the Inactive / Active / Frozen / Docked
    decision taken on every scroll event and poll tick. */
module Sticky {
  import opened Wrappers
  import opened Measure
  import opened FixItState
  import opened ScrollDirection

  /** setTargetPos: the offset as inline `top` when asked for and configured, else cleared. */
  function SetTargetPos(cfg: Config, c: Controller, reset: bool): (r: Controller)
    ensures r.top.Px? <==> !reset && cfg.useOffsetOnTarget
    ensures r.top.Px? ==> r.top.value == c.offset
    ensures r == c.(top := r.top)
  {
    c.(top := if !reset && cfg.useOffsetOnTarget then Px(c.offset) else Unset)
  }

  /** setFullyScrolled: marks the target as scrolled entirely past the offset. */
  function SetFullyScrolled(c: Controller): (r: Controller)
    ensures ScrolledClass in r.classes
    ensures r.classes - {ScrolledClass} == c.classes - {ScrolledClass}
    ensures r == c.(classes := r.classes)
    ensures Inv(c) ==> Inv(r)
  {
    if ScrolledClass in c.classes then c else c.(classes := c.classes + {ScrolledClass})
  }

  /** setActive: fixed at the offset, or at the bottom of the viewport when `toBottom`.
      It leaves isFrozen and isDocked as they were. */
  function SetActive(cfg: Config, c: Controller, toBottom: bool): (r: Controller)
    ensures r.isActive && ActiveClass in r.classes && FrozenClass !in r.classes
    ensures toBottom ==> BottomClass in r.classes && r.top == Unset
    ensures !toBottom ==> (BottomClass in r.classes <==> BottomClass in c.classes)
    ensures !toBottom ==> (r.top.Px? <==> cfg.useOffsetOnTarget)
    ensures r.top.Px? ==> r.top.value == c.offset
    ensures r.classes - {ActiveClass, FrozenClass, BottomClass} == c.classes - {ActiveClass, FrozenClass, BottomClass}
    ensures r == c.(isActive := true, classes := r.classes, top := r.top)
    ensures Inv(c) ==> Inv(r)
  {
    var classes := c.classes - {FrozenClass} + {ActiveClass};
    if toBottom then SetTargetPos(cfg, c.(isActive := true, classes := classes + {BottomClass}), true)
    else SetTargetPos(cfg, c.(isActive := true, classes := classes), false)
  }

  /** setFrozen: pinned at the snapshot's `frozenTop`, the measured distance between the
      parent's top and the target's top. Without a parent container the source has no
      such distance (see SetFrozenAsWritten); there `frozenTop` is whatever `top` the
      embedding page supplies. It does not clear isActive; its caller does that first. */
  function SetFrozen(c: Controller, g: Snapshot): (r: Controller)
    ensures r.isFrozen && FrozenClass in r.classes
    ensures ActiveClass !in r.classes && BottomClass !in r.classes
    ensures r.top == Px(g.frozenTop)
    ensures r.classes - {ActiveClass, FrozenClass, BottomClass} == c.classes - {ActiveClass, FrozenClass, BottomClass}
    ensures r == c.(isFrozen := true, classes := r.classes, top := r.top)
    ensures Inv(c) && !c.isActive ==> Inv(r)
  {
    c.(isFrozen := true, top := Px(g.frozenTop), classes := c.classes - {BottomClass, ActiveClass} + {FrozenClass})
  }

  /** setFrozen as written: it sets isFrozen and then measures the parent container's
      rect for the new `top`, so without a parent container (`false`) it throws, after
      isFrozen is already set. Where it returns, it is setFrozen. */
  function SetFrozenAsWritten(cfg: Config, c: Controller, g: Snapshot): (r: Thrown<Controller>)
    ensures r.TypeError? <==> !cfg.containedInParent
    ensures r.Returned? ==> r.value == SetFrozen(c, g) && r.value.top == Px(g.frozenTop)
  {
    if !cfg.containedInParent then TypeError else Returned(SetFrozen(c, g))
  }

  /** removeDirectionUpdates: when direction updates are on, forgets the committed
      direction, its classes and the pending timer. */
  function RemoveDirectionUpdates(cfg: Config, c: Controller): (r: Controller)
    ensures !cfg.enableDirectionUpdates ==> r == c
    ensures cfg.enableDirectionUpdates ==>
      && r.classes == c.classes - DirectionClasses
      && r.prevScrollDirection == NoDirection
      && r.directionTimer == None
      && r == c.(classes := r.classes, prevScrollDirection := NoDirection, directionTimer := None)
    ensures Inv(c) ==> Inv(r)
  {
    if cfg.enableDirectionUpdates
    then c.(classes := c.classes - DirectionClasses, prevScrollDirection := NoDirection, directionTimer := None)
    else c
  }

  /** setInactive: drops every status class and the remembered scroll position. It
      leaves isFrozen and isDocked set, the call counter and the commit position as they were. */
  function SetInactive(cfg: Config, c: Controller): (r: Controller)
    ensures !r.isActive
    ensures r.classes * StatusClasses == {}
    ensures r.scrollPosition == 0.0
    ensures r.isFrozen == c.isFrozen && r.isDocked == c.isDocked
    ensures r.callCount == c.callCount && r.prevScrollPosition == c.prevScrollPosition
    ensures cfg.enableDirectionUpdates ==>
      r.classes == c.classes - StatusClasses - DirectionClasses
      && r.prevScrollDirection == NoDirection && r.directionTimer == None
    ensures !cfg.enableDirectionUpdates ==>
      r.classes == c.classes - StatusClasses
      && r.prevScrollDirection == c.prevScrollDirection && r.directionTimer == c.directionTimer
    ensures cfg.useOffsetOnTarget ==> r.top == Unset
    ensures !cfg.useOffsetOnTarget ==> r.top == c.top
    ensures r.offset == c.offset && r.placeholderTop == c.placeholderTop
    ensures r.previousDocumentHeight == c.previousDocumentHeight
    ensures Inv(c) ==> Inv(r)
  {
    var cleared := c.(isActive := false, classes := c.classes - StatusClasses);
    var undirected := RemoveDirectionUpdates(cfg, cleared).(scrollPosition := 0.0);
    if cfg.useOffsetOnTarget then SetTargetPos(cfg, undirected, true) else undirected
  }

  /** shouldDock as written: it reads the parent container's rect unconditionally, so
      without a parent container (`false`) the call throws. */
  function ShouldDockAsWritten(cfg: Config, c: Controller, g: Snapshot): (r: Thrown<bool>)
    ensures r.TypeError? <==> !cfg.containedInParent
    ensures r.Returned? ==> (r.value <==>
      g.parentBottom <= g.clientHeight as real && g.targetBottom >= g.parentBottom && g.targetTop <= c.offset)
  {
    if !cfg.containedInParent then TypeError
    else Returned(g.parentBottom <= g.clientHeight as real && g.targetBottom >= g.parentBottom && g.targetTop <= c.offset)
  }

  /** shouldDock, as corrected: the parent's bottom is on screen, the target reaches
      it, and the target's top is at or above the offset; never without a parent. It
      answers as the source does wherever the source does not throw. */
  function ShouldDock(cfg: Config, c: Controller, g: Snapshot): (r: bool)
    ensures r <==> ShouldDockAsWritten(cfg, c, g) == Returned(true)
    ensures cfg.containedInParent ==> (r <==> ShouldDockAsWritten(cfg, c, g).value)
  {
    && cfg.containedInParent
    && g.parentBottom <= g.clientHeight as real
    && g.targetBottom >= g.parentBottom
    && g.targetTop <= c.offset
  }

  /** setDocked: parked at the bottom of the parent, fixit--bottom gone, `top` cleared. */
  function SetDocked(c: Controller): (r: Controller)
    ensures r.isDocked && DockedClass in r.classes && BottomClass !in r.classes
    ensures r.top == Unset
    ensures r.classes - {DockedClass, BottomClass} == c.classes - {DockedClass, BottomClass}
    ensures r == c.(isDocked := true, classes := r.classes, top := Unset)
    ensures Inv(c) ==> Inv(r)
  {
    c.(isDocked := true, classes := c.classes + {DockedClass} - {BottomClass}, top := Unset)
  }

  /** setUndocked: leaves the parent's bottom and takes the offset position again. */
  function SetUndocked(cfg: Config, c: Controller): (r: Controller)
    ensures !r.isDocked && DockedClass !in r.classes
    ensures r.top.Px? <==> cfg.useOffsetOnTarget
    ensures r.top.Px? ==> r.top.value == c.offset
    ensures r.classes == c.classes - {DockedClass}
    ensures r == c.(isDocked := false, classes := r.classes, top := r.top)
    ensures Inv(c) ==> Inv(r)
  {
    SetTargetPos(cfg, c.(isDocked := false, classes := c.classes - {DockedClass}), false)
  }

  /** Undocking after docking gives back the undocked state, minus fixit--bottom. */
  lemma UndockAfterDock(cfg: Config, c: Controller)
    requires !c.isDocked && DockedClass !in c.classes
    ensures SetUndocked(cfg, SetDocked(c)) == SetTargetPos(cfg, c.(classes := c.classes - {BottomClass}), false)
  {
  }

  /** containInParent: only with a parent container and while active; docks when
      shouldDock holds, undocks a docked target whose top is back at or below the offset. */
  function ContainInParent(cfg: Config, c: Controller, g: Snapshot): (r: Controller)
    ensures !(cfg.containedInParent && c.isActive) ==> r == c
    ensures cfg.containedInParent && c.isActive && ShouldDock(cfg, c, g) ==>
      r.isDocked && DockedClass in r.classes && BottomClass !in r.classes && r.top == Unset
    ensures cfg.containedInParent && c.isActive && !ShouldDock(cfg, c, g) && c.isDocked && g.targetTop >= c.offset ==>
      !r.isDocked && DockedClass !in r.classes
    ensures r.isDocked && !c.isDocked ==>
      g.parentBottom <= g.clientHeight as real && g.targetBottom >= g.parentBottom && g.targetTop <= c.offset
    ensures r.isActive == c.isActive && r.isFrozen == c.isFrozen
    ensures r.classes - {DockedClass, BottomClass} == c.classes - {DockedClass, BottomClass}
    ensures r.scrollPosition == c.scrollPosition && r.previousDocumentHeight == c.previousDocumentHeight
    ensures r.offset == c.offset && r.placeholderTop == c.placeholderTop && r.callCount == c.callCount
    ensures Inv(c) ==> Inv(r)
  {
    if cfg.containedInParent && c.isActive then
      if ShouldDock(cfg, c, g) then SetDocked(c)
      else if c.isDocked && g.targetTop >= c.offset then SetUndocked(cfg, c)
      else c
    else c
  }

  /** canContainInParent: no parent, or a target shorter than its parent. */
  function CanContainInParent(cfg: Config, g: Snapshot): (r: bool)
    ensures !cfg.containedInParent ==> r
    ensures cfg.containedInParent ==> (r <==> g.targetHeight < g.parentHeight)
  {
    !cfg.containedInParent || g.targetHeight < g.parentHeight
  }

  /** The trigger: containable, and the placeholder has scrolled above the offset. */
  function Triggered(cfg: Config, c: Controller, g: Snapshot): (r: bool)
    ensures r ==> g.placeholderTop < c.offset
    ensures g.placeholderTop >= c.offset ==> !r
    ensures !cfg.containedInParent ==> (r <==> g.placeholderTop < c.offset)
    ensures cfg.containedInParent && g.targetHeight >= g.parentHeight ==> !r
    ensures cfg.containedInParent && g.targetHeight < g.parentHeight ==> (r <==> g.placeholderTop < c.offset)
  {
    CanContainInParent(cfg, g) && g.placeholderTop < c.offset
  }

  /** targetIsTall: the target does not fit below the offset in the viewport. */
  function TargetIsTall(c: Controller, g: Snapshot): (r: bool)
    ensures r <==> g.targetHeight > g.clientHeight as real - c.offset
    ensures g.targetHeight > g.clientHeight as real && c.offset >= 0.0 ==> r
  {
    g.targetHeight + c.offset > g.clientHeight as real
  }

  /** The edge a tall target needs on screen before it may stick again: its rounded
      bottom inside the viewport when scrolling down, its rounded top at or below the
      offset otherwise (an undefined direction counts as "otherwise"). Rounding gives
      half a pixel of slack: a bottom less than half a pixel below the viewport fits,
      and so does a top at most half a pixel above the offset rounded up to a whole
      pixel (the offset itself, when it is whole). */
  function Fits(c: Controller, g: Snapshot, dir: Direction): (r: bool)
    ensures dir == Down ==>
      (r <==> g.targetBottom < MaxInt(g.innerHeight, g.clientHeight) as real + 0.5)
    ensures dir != Down ==> (r <==> g.targetTop >= Ceil(c.offset) as real - 0.5)
    ensures dir != Down && c.offset == c.offset.Floor as real ==>
      (r <==> g.targetTop >= c.offset - 0.5)
  {
    if dir == Down then Round(g.targetBottom) <= MaxInt(g.innerHeight, g.clientHeight)
    else
      RoundAtLeast(g.targetTop, Ceil(c.offset));
      AtLeastCeil(Round(g.targetTop), c.offset);
      Round(g.targetTop) as real >= c.offset
  }

  /** A poll tick finding the document height it recorded last time does nothing; a
      scroll event, and the first poll, always evaluate. */
  function SkipsPoll(c: Controller, g: Snapshot, isAutoUpdate: bool): (r: bool)
    ensures !isAutoUpdate ==> !r
    ensures c.previousDocumentHeight.None? ==> !r
    ensures isAutoUpdate && c.previousDocumentHeight.Some? ==>
      (r <==> c.previousDocumentHeight.value == g.documentHeight)
  {
    isAutoUpdate && c.previousDocumentHeight == Some(g.documentHeight)
  }

  /** The tall/short split: a short target is simply made active; a tall one sticks
      only when its leading edge fits, and otherwise an active, undocked target that
      should not dock is frozen. */
  function PlaceTarget(cfg: Config, c: Controller, g: Snapshot, dir: Direction): (r: Controller)
    ensures !TargetIsTall(c, g) ==> r.isActive && r.isFrozen == c.isFrozen
    ensures !TargetIsTall(c, g) && !c.isActive ==> FrozenClass !in r.classes
    ensures TargetIsTall(c, g) && Fits(c, g, dir) && !c.isActive ==>
      r.isActive && !r.isFrozen && FrozenClass !in r.classes
      && (dir == Down ==> BottomClass in r.classes && r.top == Unset)
    ensures TargetIsTall(c, g) && !Fits(c, g, dir) && c.isActive && !c.isDocked && !ShouldDock(cfg, c, g) ==>
      !r.isActive && r.isFrozen && FrozenClass in r.classes && ActiveClass !in r.classes && r.top == Px(g.frozenTop)
    ensures c.isActive && (!TargetIsTall(c, g) || Fits(c, g, dir) || c.isDocked || ShouldDock(cfg, c, g)) ==> r == c
    ensures !c.isActive && TargetIsTall(c, g) && !Fits(c, g, dir) ==> r == c
    ensures r.isDocked == c.isDocked && r.offset == c.offset && r.scrollPosition == c.scrollPosition
    ensures r.placeholderTop == c.placeholderTop && r.callCount == c.callCount
    ensures r.previousDocumentHeight == c.previousDocumentHeight
    ensures ScrolledClass in c.classes ==> ScrolledClass in r.classes
    ensures Inv(c) ==> Inv(r)
  {
    if !TargetIsTall(c, g) then
      if !c.isActive then SetActive(cfg, c, false) else c
    else if Fits(c, g, dir) then
      if !c.isActive then SetActive(cfg, c.(isFrozen := false), dir == Down) else c
    else if c.isActive && !c.isDocked && !ShouldDock(cfg, c, g) then
      SetFrozen(c.(isActive := false), g)
    else c
  }

  /** The triggered part of updateStickyStatus, from reading the direction to the
      containment check; `c` already holds the new placeholder measurement. */
  function TriggeredUpdate(cfg: Config, c: Controller, g: Snapshot): (r: Controller)
    requires c.placeholderTop == g.placeholderTop
    ensures r.scrollPosition == g.placeholderTop
    ensures r.previousDocumentHeight == Some(g.documentHeight)
    ensures g.placeholderTop + g.targetHeight < c.offset ==> ScrolledClass in r.classes
    ensures r.offset == c.offset && r.placeholderTop == c.placeholderTop
    ensures CounterBelowThrottle(cfg, c) ==> CounterBelowThrottle(cfg, r)
    ensures Inv(c) ==> Inv(r)
  {
    var reading := GetScrollDirection(c);
    var recorded := reading.ctl.(previousDocumentHeight := Some(g.documentHeight));
    var scrolled := if g.placeholderTop + g.targetHeight < c.offset then SetFullyScrolled(recorded) else recorded;
    var requested :=
      if cfg.enableDirectionUpdates then RequestScrollDirectionUpdate(cfg, scrolled, reading.direction)
      else scrolled;
    ContainInParent(cfg, PlaceTarget(cfg, requested, g, reading.direction), g)
  }

  /** The result of one evaluation: the new state and the returned `isActive || isFrozen`. */
  datatype Evaluation = Evaluation(ctl: Controller, stuck: bool)

  /** updateStickyStatus. */
  function UpdateStickyStatus(cfg: Config, c: Controller, g: Snapshot, isAutoUpdate: bool): (r: Evaluation)
    ensures r.stuck <==> r.ctl.isActive || r.ctl.isFrozen
    ensures SkipsPoll(c, g, isAutoUpdate) ==> r.ctl == c
    ensures !SkipsPoll(c, g, isAutoUpdate) ==> r.ctl.placeholderTop == g.placeholderTop
    ensures r.ctl.offset == c.offset
    ensures Inv(c) ==> Inv(r.ctl)
    ensures CounterBelowThrottle(cfg, c) ==> CounterBelowThrottle(cfg, r.ctl)
  {
    if SkipsPoll(c, g, isAutoUpdate) then Evaluation(c, c.isActive || c.isFrozen)
    else
      var measured := c.(placeholderTop := g.placeholderTop);
      var next :=
        if Triggered(cfg, c, g) then TriggeredUpdate(cfg, measured, g)
        else if measured.isActive then SetInactive(cfg, measured)
        else measured;
      Evaluation(next, next.isActive || next.isFrozen)
  }
}
