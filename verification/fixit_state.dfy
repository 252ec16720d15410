/** The state a FixIt instance keeps between events: its flags, its scroll-direction
    bookkeeping, the CSS state classes on the target and the target's inline `top`. */
module FixItState {
  import opened Wrappers

  /** A scroll direction as getScrollDirection reports it; NoDirection is `undefined`. */
  datatype Direction = NoDirection | Up | Down

  /** The CSS classes the controller puts on the target. ScrollClass(d) is
      `fixit--scroll-<d>`; ScrollClass(NoDirection) is the class the template string
      produces for an undefined direction, `fixit--scroll-undefined`. */
  datatype StateClass =
    | ActiveClass            // fixit--active
    | FrozenClass            // fixit--frozen
    | DockedClass            // fixit--docked
    | BottomClass            // fixit--bottom
    | ScrolledClass          // fixit--scrolled
    | ScrollClass(direction: Direction)
    | DirectionChangeClass   // fixit--scroll-direction-change
    | RespondToParentClass   // fixit--respond-to-parent

  /** The target's inline `top`: cleared (the empty string) or a pixel value. */
  datatype InlineTop = Unset | Px(value: real)

  /** The options the controller consults while running, already resolved:
      containedInParent says whether a parent container exists. */
  datatype Config = Config(
    containedInParent: bool,
    useOffsetOnTarget: bool,
    enableDirectionUpdates: bool,
    respondToParent: bool,
    positionThreshold: real,
    directionThrottle: int)

  /** The instance fields. Undefined booleans read as false and an undefined call
      counter as 0; placeholderTop is `_placeholderRect.top` of the latest measurement,
      directionTimer the pending debounced direction commit with the direction it captured. */
  datatype Controller = Controller(
    isActive: bool,
    isFrozen: bool,
    isDocked: bool,
    scrollPosition: real,
    placeholderTop: real,
    prevScrollDirection: Direction,
    prevScrollPosition: Option<real>,
    newScrollPosition: real,
    callCount: nat,
    previousDocumentHeight: Option<int>,
    offset: real,
    classes: set<StateClass>,
    top: InlineTop,
    directionTimer: Option<Direction>)

  /** The classes setInactive removes unconditionally. */
  const StatusClasses: set<StateClass> := {ActiveClass, BottomClass, DockedClass, FrozenClass, ScrolledClass}

  /** The classes removeDirectionUpdates removes. */
  const DirectionClasses: set<StateClass> := {ScrollClass(Up), ScrollClass(Down), DirectionChangeClass}

  /** How the flags and the classes agree in every reachable state:
      fixit--active is present exactly while active, fixit--frozen and fixit--bottom only
      with their flags, and a scroll-up/down class only for the committed direction. */
  predicate Inv(c: Controller)
  {
    && (ActiveClass in c.classes <==> c.isActive)
    && (FrozenClass in c.classes ==> c.isFrozen && !c.isActive)
    && (DockedClass in c.classes ==> c.isDocked)
    && (BottomClass in c.classes ==> c.isActive)
    && (ScrollClass(Up) in c.classes ==> c.prevScrollDirection == Up)
    && (ScrollClass(Down) in c.classes ==> c.prevScrollDirection == Down)
    && (c.prevScrollDirection != NoDirection ==> ScrollClass(c.prevScrollDirection) in c.classes)
  }

  /** The call counter stays below a positive throttle. */
  predicate CounterBelowThrottle(cfg: Config, c: Controller)
  {
    cfg.directionThrottle >= 1 ==> c.callCount < cfg.directionThrottle
  }

  /** A fresh instance: nothing measured, no classes, the constructor's offset. */
  function Initial(offset: real): (c: Controller)
    ensures Inv(c)
    ensures !c.isActive && !c.isFrozen && !c.isDocked && c.classes == {}
    ensures c.offset == offset
  {
    Controller(
      isActive := false, isFrozen := false, isDocked := false,
      scrollPosition := 0.0, placeholderTop := 0.0,
      prevScrollDirection := NoDirection, prevScrollPosition := None, newScrollPosition := 0.0,
      callCount := 0, previousDocumentHeight := None,
      offset := offset, classes := {}, top := Unset, directionTimer := None)
  }

  /** Neither fixit--active nor fixit--frozen is present together with the other. */
  lemma ActiveAndFrozenClassesExclusive(c: Controller)
    requires Inv(c)
    ensures !(ActiveClass in c.classes && FrozenClass in c.classes)
    ensures !(ScrollClass(Up) in c.classes && ScrollClass(Down) in c.classes)
  {
  }
}
