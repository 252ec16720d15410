/** Resolving the scroll-direction options the constructor reads. */
module Options {
  import opened Wrappers
  import opened FixItState
  import opened ScrollDirection

  /** The user options the running controller depends on; an absent number is None. */
  datatype UserOptions = UserOptions(
    containedInParent: bool,
    useOffsetOnTarget: bool,
    enableDirectionUpdates: bool,
    respondToParent: bool,
    scrollPositionThereshold: Option<real>,
    scrollDirectionThrottle: Option<int>)

  const DefaultThreshold: real := 75.0
  const DefaultThrottle: int := 20

  /** JavaScript's `x || fallback` on a number: 0 is falsy. */
  function OrReal(x: Option<real>, fallback: real): (r: real)
    ensures x.Some? && x.value != 0.0 ==> r == x.value
    ensures x.None? || x == Some(0.0) ==> r == fallback
  {
    if x.Some? && x.value != 0.0 then x.value else fallback
  }

  function OrInt(x: Option<int>, fallback: int): (r: int)
    ensures x.Some? && x.value != 0 ==> r == x.value
    ensures x.None? || x == Some(0) ==> r == fallback
  {
    if x.Some? && x.value != 0 then x.value else fallback
  }

  /** The constructor as written: `option || default`, so an explicit 0 becomes the default. */
  function ConfigFromOptionsAsWritten(o: UserOptions): (cfg: Config)
    ensures o.scrollDirectionThrottle == Some(0) ==> cfg.directionThrottle == DefaultThrottle
    ensures o.scrollPositionThereshold == Some(0.0) ==> cfg.positionThreshold == DefaultThreshold
    ensures o.scrollDirectionThrottle.Some? && o.scrollDirectionThrottle.value != 0 ==>
      cfg.directionThrottle == o.scrollDirectionThrottle.value
    ensures o.scrollDirectionThrottle.None? ==> cfg.directionThrottle == DefaultThrottle
    ensures o.scrollPositionThereshold.Some? && o.scrollPositionThereshold.value != 0.0 ==>
      cfg.positionThreshold == o.scrollPositionThereshold.value
    ensures o.scrollPositionThereshold.None? ==> cfg.positionThreshold == DefaultThreshold
    ensures cfg.containedInParent == o.containedInParent && cfg.useOffsetOnTarget == o.useOffsetOnTarget
    ensures cfg.enableDirectionUpdates == o.enableDirectionUpdates && cfg.respondToParent == o.respondToParent
    ensures cfg.directionThrottle != 0
    ensures o.scrollDirectionThrottle != Some(0) && o.scrollPositionThereshold != Some(0.0) ==>
      cfg == ConfigFromOptions(o)
  {
    Config(o.containedInParent, o.useOffsetOnTarget, o.enableDirectionUpdates, o.respondToParent,
           OrReal(o.scrollPositionThereshold, DefaultThreshold), OrInt(o.scrollDirectionThrottle, DefaultThrottle))
  }

  /** The constructor as its comment intends: a given number, 0 included, is used;
      only an absent one takes the default. */
  function ConfigFromOptions(o: UserOptions): (cfg: Config)
    ensures o.scrollDirectionThrottle.Some? ==> cfg.directionThrottle == o.scrollDirectionThrottle.value
    ensures o.scrollDirectionThrottle.None? ==> cfg.directionThrottle == DefaultThrottle
    ensures o.scrollPositionThereshold.Some? ==> cfg.positionThreshold == o.scrollPositionThereshold.value
    ensures o.scrollPositionThereshold.None? ==> cfg.positionThreshold == DefaultThreshold
    ensures cfg.containedInParent == o.containedInParent && cfg.useOffsetOnTarget == o.useOffsetOnTarget
    ensures cfg.enableDirectionUpdates == o.enableDirectionUpdates && cfg.respondToParent == o.respondToParent
  {
    Config(o.containedInParent, o.useOffsetOnTarget, o.enableDirectionUpdates, o.respondToParent,
           o.scrollPositionThereshold.ValueOr(DefaultThreshold), o.scrollDirectionThrottle.ValueOr(DefaultThrottle))
  }

  /** Options with both tuning knobs explicitly 0. */
  function ZeroKnobs(o: UserOptions): UserOptions
  {
    o.(scrollPositionThereshold := Some(0.0), scrollDirectionThrottle := Some(0))
  }

  /** As written, zero knobs are replaced by 20 and 75: a first 10px move does not
      change the direction. */
  lemma ZeroKnobsIgnoredAsWritten(o: UserOptions, c: Controller)
    requires c.callCount == 0 && c.prevScrollPosition == None && c.prevScrollDirection == NoDirection
    requires c.placeholderTop == -10.0
    ensures RequestScrollDirectionUpdate(ConfigFromOptionsAsWritten(ZeroKnobs(o)), c, Down).prevScrollDirection == NoDirection
  {
  }

  /** As intended, zero knobs commit the direction on every call that moved at all. */
  lemma ZeroKnobsCommitEveryMove(o: UserOptions, c: Controller, d: Direction)
    requires c.placeholderTop != c.prevScrollPosition.ValueOr(0.0)
    ensures RequestScrollDirectionUpdate(ConfigFromOptions(ZeroKnobs(o)), c, d).prevScrollDirection == d
    ensures RequestScrollDirectionUpdate(ConfigFromOptions(ZeroKnobs(o)), c, d).callCount == 0
  {
  }
}
