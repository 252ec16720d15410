/** enableSticky's enable/disable toggle, with the listeners and intervals it wires
    counted abstractly and its debounced timeout made an explicit "timer fires" step. */
module Lifecycle {
  import opened Measure
  import opened FixItState
  import opened Sticky

  /** A FixIt instance with its wiring: whether the scroll listener is attached (the
      DOM never attaches the same listener twice), how many 100ms poll intervals run,
      and whether the debounced enableSticky timeout is pending. */
  datatype Instance = Instance(
    ctl: Controller,
    isEnabled: bool,
    placeholderCreated: bool,
    scrollListener: bool,
    liveIntervals: nat,
    resizeTimerPending: bool)

  /** Exactly one poll interval and the scroll listener while enabled, none otherwise. */
  predicate Wired(l: Instance)
  {
    && l.liveIntervals == (if l.isEnabled then 1 else 0)
    && l.scrollListener == l.isEnabled
    && (l.isEnabled ==> l.placeholderCreated)
  }

  /** The constructor with a target: the offset resolved and enableSticky() scheduled. */
  function Construct(offset: real): (l: Instance)
    ensures Wired(l) && Inv(l.ctl)
    ensures !l.isEnabled && !l.placeholderCreated && l.resizeTimerPending
    ensures l.ctl.offset == offset
  {
    Instance(Initial(offset), false, false, false, 0, true)
  }

  /** enableSticky: clears any pending timeout and schedules a new one, so at most one
      is pending. */
  function EnableSticky(l: Instance): (r: Instance)
    ensures r.resizeTimerPending
    ensures r.ctl == l.ctl && r.isEnabled == l.isEnabled && r.liveIntervals == l.liveIntervals
    ensures r.scrollListener == l.scrollListener && r.placeholderCreated == l.placeholderCreated
    ensures Wired(l) ==> Wired(r)
  {
    l.(resizeTimerPending := true)
  }

  /** initialSetup, as far as the state machine sees it: the scroll position starts at
      0 and fixit--respond-to-parent is added when configured. */
  function InitialSetup(cfg: Config, c: Controller): (r: Controller)
    ensures r.scrollPosition == 0.0
    ensures RespondToParentClass in r.classes <==> cfg.respondToParent || RespondToParentClass in c.classes
    ensures r.classes - {RespondToParentClass} == c.classes - {RespondToParentClass}
    ensures r == c.(scrollPosition := 0.0, classes := r.classes)
    ensures Inv(c) ==> Inv(r)
  {
    var classes := if cfg.respondToParent then c.classes + {RespondToParentClass} else c.classes;
    c.(scrollPosition := 0.0, classes := classes)
  }

  /** The enableSticky timeout firing: recompute the offset, then enable (setting up once,
      starting the poll and the scroll listener, evaluating at once) or disable (setInactive,
      stopping both) when `shouldEnable` disagrees with the current state. */
  function ResizeTimerFires(cfg: Config, l: Instance, src: OffsetSource, shouldEnable: bool, g: Snapshot): (r: Instance)
    ensures !l.resizeTimerPending ==> r == l
    ensures l.resizeTimerPending ==> !r.resizeTimerPending && r.ctl.offset == OffsetValue(src, l.ctl.offset)
    ensures l.resizeTimerPending && !l.isEnabled && shouldEnable ==>
      && r.isEnabled && r.placeholderCreated && r.scrollListener
      && r.liveIntervals == l.liveIntervals + 1
      && r.ctl == UpdateStickyStatus(cfg, (if l.placeholderCreated then l.ctl else InitialSetup(cfg, l.ctl)).(offset := r.ctl.offset), g, false).ctl
    ensures l.resizeTimerPending && l.isEnabled && !shouldEnable ==>
      && !r.isEnabled && !r.scrollListener && !r.ctl.isActive
      && r.ctl.classes * StatusClasses == {}
      && r.liveIntervals == (if l.liveIntervals > 0 then l.liveIntervals - 1 else 0)
    ensures l.resizeTimerPending && l.isEnabled == shouldEnable ==>
      r == l.(resizeTimerPending := false, ctl := l.ctl.(offset := OffsetValue(src, l.ctl.offset)))
    ensures Wired(l) ==> Wired(r)
    ensures Inv(l.ctl) ==> Inv(r.ctl)
  {
    if !l.resizeTimerPending then l
    else
      var measured := l.(resizeTimerPending := false, ctl := l.ctl.(offset := OffsetValue(src, l.ctl.offset)));
      if !measured.isEnabled && shouldEnable then
        var setUp := if measured.placeholderCreated then measured.ctl else InitialSetup(cfg, measured.ctl);
        var evaluated := UpdateStickyStatus(cfg, setUp, g, false).ctl;
        measured.(isEnabled := true, placeholderCreated := true, ctl := evaluated,
                  liveIntervals := measured.liveIntervals + 1, scrollListener := true)
      else if measured.isEnabled && !shouldEnable then
        measured.(isEnabled := false, ctl := SetInactive(cfg, measured.ctl),
                  liveIntervals := if measured.liveIntervals > 0 then measured.liveIntervals - 1 else 0,
                  scrollListener := false)
      else measured
  }

  /** A scroll event: evaluated only while the scroll listener is attached. */
  function ScrollEvent(cfg: Config, l: Instance, g: Snapshot): (r: Instance)
    ensures !l.scrollListener ==> r == l
    ensures l.scrollListener ==> r == l.(ctl := UpdateStickyStatus(cfg, l.ctl, g, false).ctl)
    ensures Inv(l.ctl) ==> Inv(r.ctl)
    ensures CounterBelowThrottle(cfg, l.ctl) ==> CounterBelowThrottle(cfg, r.ctl)
  {
    if l.scrollListener then l.(ctl := UpdateStickyStatus(cfg, l.ctl, g, false).ctl) else l
  }

  /** A poll tick: an automatic evaluation, only while a poll interval runs. */
  function PollTick(cfg: Config, l: Instance, g: Snapshot): (r: Instance)
    ensures l.liveIntervals == 0 ==> r == l
    ensures l.liveIntervals > 0 ==> r == l.(ctl := UpdateStickyStatus(cfg, l.ctl, g, true).ctl)
    ensures Inv(l.ctl) ==> Inv(r.ctl)
    ensures CounterBelowThrottle(cfg, l.ctl) ==> CounterBelowThrottle(cfg, r.ctl)
  {
    if l.liveIntervals > 0 then l.(ctl := UpdateStickyStatus(cfg, l.ctl, g, true).ctl) else l
  }

  /** Once disabled, neither scrolling nor polling touches the target. */
  lemma DisabledIgnoresEvents(cfg: Config, l: Instance, g: Snapshot)
    requires Wired(l) && !l.isEnabled
    ensures ScrollEvent(cfg, l, g) == l
    ensures PollTick(cfg, l, g) == l
  {
  }

  /** Enabling twice in a row attaches one scroll listener and one poll interval. */
  lemma {:induction false} EnableTwiceWiresOnce(cfg: Config, l: Instance, src: OffsetSource, g1: Snapshot, g2: Snapshot)
    requires Wired(l)
    ensures var once := ResizeTimerFires(cfg, EnableSticky(l), src, true, g1);
      var twice := ResizeTimerFires(cfg, EnableSticky(once), src, true, g2);
      twice.isEnabled && twice.scrollListener && twice.liveIntervals == 1 && once.liveIntervals == 1
  {
    var once := ResizeTimerFires(cfg, EnableSticky(l), src, true, g1);
    assert once.isEnabled;
    assert Wired(once);
    var twice := ResizeTimerFires(cfg, EnableSticky(once), src, true, g2);
    assert Wired(twice);
  }

  /** Disabling an enabled instance leaves it inactive with nothing wired. */
  lemma DisableTearsDown(cfg: Config, l: Instance, src: OffsetSource, g: Snapshot)
    requires Wired(l) && l.isEnabled
    ensures var r := ResizeTimerFires(cfg, EnableSticky(l), src, false, g);
      !r.isEnabled && !r.scrollListener && r.liveIntervals == 0 && !r.ctl.isActive
      && ActiveClass !in r.ctl.classes && FrozenClass !in r.ctl.classes
  {
  }
}
