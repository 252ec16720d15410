/** The scroll-direction detector: direction from the placeholder's movement, a
    count-based throttle, a debounced settle step, a jitter threshold, and the commit
    that swaps the fixit--scroll-up/down classes. */
module ScrollDirection {
  import opened Wrappers
  import opened Measure
  import opened FixItState

  /** A direction together with the state that reading it leaves behind. */
  datatype Reading = Reading(direction: Direction, ctl: Controller)

  /** getScrollDirection: the placeholder moving up the screen (its top shrinking)
      means scrolling down; it always remembers the new top. */
  function GetScrollDirection(c: Controller): (r: Reading)
    ensures r.direction == Down <==> c.placeholderTop < c.scrollPosition
    ensures r.direction == Up <==> c.scrollPosition < c.placeholderTop
    ensures r.direction == NoDirection <==> c.scrollPosition == c.placeholderTop
    ensures r.ctl == c.(scrollPosition := c.placeholderTop)
    ensures Inv(c) ==> Inv(r.ctl)
  {
    var direction :=
      if c.scrollPosition > c.placeholderTop then Down
      else if c.scrollPosition < c.placeholderTop then Up
      else NoDirection;
    Reading(direction, c.(scrollPosition := c.placeholderTop))
  }

  /** Reading twice without moving reports no direction the second time. */
  lemma SecondReadingWithoutMovementHasNoDirection(c: Controller)
    ensures GetScrollDirection(GetScrollDirection(c).ctl).direction == NoDirection
    ensures GetScrollDirection(GetScrollDirection(c).ctl).ctl == GetScrollDirection(c).ctl
  {
  }

  /** updateScrollDirection: commits a direction different from the committed one,
      swapping the direction classes and remembering where the commit happened. */
  function UpdateScrollDirection(c: Controller, d: Direction): (r: Controller)
    ensures d == c.prevScrollDirection ==> r == c
    ensures d != c.prevScrollDirection ==>
      && r.prevScrollDirection == d
      && r.prevScrollPosition == Some(c.placeholderTop)
      && ScrollClass(d) in r.classes
      && ScrollClass(c.prevScrollDirection) !in r.classes
      && (DirectionChangeClass in r.classes <==>
            c.prevScrollDirection != NoDirection || DirectionChangeClass in c.classes)
      && r.classes - {ScrollClass(d), ScrollClass(c.prevScrollDirection), DirectionChangeClass}
         == c.classes - {ScrollClass(d), ScrollClass(c.prevScrollDirection), DirectionChangeClass}
      && r == c.(classes := r.classes, prevScrollDirection := d, prevScrollPosition := Some(c.placeholderTop))
    ensures Inv(c) ==> Inv(r)
  {
    if c.prevScrollDirection == d then c
    else
      var swapped := c.classes + {ScrollClass(d)} - {ScrollClass(c.prevScrollDirection)};
      var marked := if c.prevScrollDirection != NoDirection then swapped + {DirectionChangeClass} else swapped;
      c.(classes := marked, prevScrollDirection := d, prevScrollPosition := Some(c.placeholderTop))
  }

  /** Committing the same direction twice is the same as committing it once. */
  lemma UpdateScrollDirectionIdempotent(c: Controller, d: Direction)
    ensures UpdateScrollDirection(UpdateScrollDirection(c, d), d) == UpdateScrollDirection(c, d)
  {
  }

  /** Distance between the newest position and the position of the last commit
      (`_prevScrollPosition || 0`). */
  function DistanceFromLastCommit(c: Controller): (r: real)
    ensures r >= 0.0
    ensures r == 0.0 <==> c.newScrollPosition == c.prevScrollPosition.ValueOr(0.0)
    ensures c.prevScrollPosition.None? ==> (r == c.newScrollPosition || r == -c.newScrollPosition)
    ensures c.prevScrollPosition.Some? ==>
      r == c.newScrollPosition - c.prevScrollPosition.value || r == c.prevScrollPosition.value - c.newScrollPosition
  {
    Abs(c.newScrollPosition - c.prevScrollPosition.ValueOr(0.0))
  }

  /** _updateScrollDirectionOnThreshold: a commit is attempted only beyond the threshold. */
  function CommitIfPastThreshold(cfg: Config, c: Controller, d: Direction): (r: Controller)
    ensures DistanceFromLastCommit(c) <= cfg.positionThreshold ==> r == c
    ensures DistanceFromLastCommit(c) > cfg.positionThreshold ==> r.prevScrollDirection == d
    ensures r != c ==> DistanceFromLastCommit(c) > cfg.positionThreshold && d != c.prevScrollDirection
    ensures r == UpdateScrollDirection(c, d) || r == c
    ensures Inv(c) ==> Inv(r)
  {
    if DistanceFromLastCommit(c) > cfg.positionThreshold then UpdateScrollDirection(c, d) else c
  }

  /** requestScrollDirectionUpdate: counts the call, records the newest position,
      commits at once when the counter reaches the throttle (then resets it), and
      re-arms the debounce timer with the direction of this call. */
  function RequestScrollDirectionUpdate(cfg: Config, c: Controller, d: Direction): (r: Controller)
    ensures r.newScrollPosition == c.placeholderTop
    ensures r.directionTimer == Some(d)
    ensures r.callCount == 0 <==> c.callCount + 1 >= cfg.directionThrottle
    ensures r.callCount != 0 ==> r.callCount == c.callCount + 1
    ensures CounterBelowThrottle(cfg, r)
    ensures c.callCount + 1 < cfg.directionThrottle
            || Abs(c.placeholderTop - c.prevScrollPosition.ValueOr(0.0)) <= cfg.positionThreshold
            ==> r.classes == c.classes && r.prevScrollDirection == c.prevScrollDirection
                && r.prevScrollPosition == c.prevScrollPosition
    ensures c.callCount + 1 >= cfg.directionThrottle
            && Abs(c.placeholderTop - c.prevScrollPosition.ValueOr(0.0)) > cfg.positionThreshold
            ==> r.prevScrollDirection == d && (d != c.prevScrollDirection ==> ScrollClass(d) in r.classes)
    ensures r.isActive == c.isActive && r.isFrozen == c.isFrozen && r.isDocked == c.isDocked
    ensures r.placeholderTop == c.placeholderTop && r.scrollPosition == c.scrollPosition && r.offset == c.offset
    ensures r.top == c.top && r.previousDocumentHeight == c.previousDocumentHeight
    ensures Inv(c) ==> Inv(r)
  {
    var counted := c.(callCount := c.callCount + 1, newScrollPosition := c.placeholderTop);
    var throttled :=
      if counted.callCount >= cfg.directionThrottle
      then CommitIfPastThreshold(cfg, counted, d).(callCount := 0)
      else counted;
    throttled.(directionTimer := Some(d))
  }

  /** The debounced timer firing: a threshold-gated commit of the captured direction,
      after which the current position becomes the reference, whether or not it committed. */
  function DirectionTimerFires(cfg: Config, c: Controller): (r: Controller)
    ensures c.directionTimer.None? ==> r == c
    ensures c.directionTimer.Some? ==>
      && r.directionTimer == None
      && r.prevScrollPosition == Some(c.placeholderTop)
      && (DistanceFromLastCommit(c) <= cfg.positionThreshold
          ==> r.classes == c.classes && r.prevScrollDirection == c.prevScrollDirection)
      && (DistanceFromLastCommit(c) > cfg.positionThreshold
          ==> r.prevScrollDirection == c.directionTimer.value)
    ensures r.isActive == c.isActive && r.isFrozen == c.isFrozen && r.isDocked == c.isDocked
    ensures r.callCount == c.callCount && r.placeholderTop == c.placeholderTop && r.top == c.top
    ensures r.offset == c.offset
    ensures Inv(c) ==> Inv(r)
  {
    match c.directionTimer
    case None => c
    case Some(d) =>
      var committed := CommitIfPastThreshold(cfg, c, d);
      committed.(prevScrollPosition := Some(committed.placeholderTop), directionTimer := None)
  }

  /** Every class the detector adds or removes: the three direction classes and
      `fixit--scroll-undefined`. */
  const DetectorClasses: set<StateClass> := DirectionClasses + {ScrollClass(NoDirection)}

  /** The part of a controller the detector reads and writes. */
  datatype DetectorState = DetectorState(
    scrollPosition: real, placeholderTop: real, newScrollPosition: real,
    prevScrollDirection: Direction, prevScrollPosition: Option<real>,
    callCount: nat, directionTimer: Option<Direction>, classes: set<StateClass>)

  function DetectorView(c: Controller): DetectorState
  {
    DetectorState(c.scrollPosition, c.placeholderTop, c.newScrollPosition,
                  c.prevScrollDirection, c.prevScrollPosition,
                  c.callCount, c.directionTimer, c.classes * DetectorClasses)
  }

  /** A commit depends on nothing outside the detector's view. */
  lemma UpdateScrollDirectionRespectsView(a: Controller, b: Controller, d: Direction)
    requires DetectorView(a) == DetectorView(b)
    ensures DetectorView(UpdateScrollDirection(a, d)) == DetectorView(UpdateScrollDirection(b, d))
  {
    if a.prevScrollDirection != d {
      var ra, rb := UpdateScrollDirection(a, d), UpdateScrollDirection(b, d);
      forall x | x in DetectorClasses
        ensures x in ra.classes <==> x in rb.classes
      {
        assert x in a.classes * DetectorClasses <==> x in b.classes * DetectorClasses;
      }
      assert ra.classes * DetectorClasses == rb.classes * DetectorClasses;
    }
  }

  /** Nor does a request. */
  lemma RequestRespectsView(cfg: Config, a: Controller, b: Controller, d: Direction)
    requires DetectorView(a) == DetectorView(b)
    ensures DetectorView(RequestScrollDirectionUpdate(cfg, a, d))
         == DetectorView(RequestScrollDirectionUpdate(cfg, b, d))
  {
    var ca := a.(callCount := a.callCount + 1, newScrollPosition := a.placeholderTop);
    var cb := b.(callCount := b.callCount + 1, newScrollPosition := b.placeholderTop);
    assert DetectorView(ca) == DetectorView(cb);
    UpdateScrollDirectionRespectsView(ca, cb, d);
  }

  /** Nor does any event, so neither does a sequence of them. */
  lemma {:induction false} ReplayRespectsView(cfg: Config, a: Controller, b: Controller, events: seq<DirectionEvent>)
    requires DetectorView(a) == DetectorView(b)
    ensures DetectorView(Replay(cfg, a, events)) == DetectorView(Replay(cfg, b, events))
    decreases |events|
  {
    if |events| > 0 {
      match events[0] {
        case Tick(top) =>
          var ra, rb := GetScrollDirection(a.(placeholderTop := top)), GetScrollDirection(b.(placeholderTop := top));
          assert ra.direction == rb.direction;
          assert DetectorView(ra.ctl) == DetectorView(rb.ctl);
          RequestRespectsView(cfg, ra.ctl, rb.ctl, ra.direction);
        case TimerFires =>
          if a.directionTimer.Some? {
            UpdateScrollDirectionRespectsView(a, b, a.directionTimer.value);
          }
      }
      ReplayRespectsView(cfg, Step(cfg, a, events[0]), Step(cfg, b, events[0]), events[1..]);
    }
  }

  /** What the detector sees: a triggered evaluation with the placeholder at `top`,
      or the debounce timer firing. */
  datatype DirectionEvent = Tick(top: real) | TimerFires

  /** A triggered evaluation as far as the detector is concerned (direction updates on). */
  function ScrollTick(cfg: Config, c: Controller, top: real): (r: Controller)
    ensures Inv(c) ==> Inv(r)
  {
    var reading := GetScrollDirection(c.(placeholderTop := top));
    RequestScrollDirectionUpdate(cfg, reading.ctl, reading.direction)
  }

  function Step(cfg: Config, c: Controller, e: DirectionEvent): (r: Controller)
    ensures Inv(c) ==> Inv(r)
  {
    match e
    case Tick(top) => ScrollTick(cfg, c, top)
    case TimerFires => DirectionTimerFires(cfg, c)
  }

  /** The detector's state after a sequence of events. */
  function Replay(cfg: Config, c: Controller, events: seq<DirectionEvent>): (r: Controller)
    ensures Inv(c) ==> Inv(r)
    decreases |events|
  {
    if |events| == 0 then c else Replay(cfg, Step(cfg, c, events[0]), events[1..])
  }

  lemma {:induction false} ReplayAppend(cfg: Config, c: Controller, a: seq<DirectionEvent>, b: seq<DirectionEvent>)
    ensures Replay(cfg, c, a + b) == Replay(cfg, Replay(cfg, c, a), b)
    decreases |a|
  {
    if |a| == 0 {
      assert a + b == b;
    } else {
      assert (a + b)[1..] == a[1..] + b;
      ReplayAppend(cfg, Step(cfg, c, a[0]), a[1..], b);
    }
  }

  /** Jitter never toggles the direction: when every position seen, and the reference
      position, stay within one threshold-wide band, no sequence of ticks and timer
      firings changes the direction classes or the committed direction. */
  lemma {:induction false} JitterNeverToggles(cfg: Config, c: Controller, events: seq<DirectionEvent>, lo: real)
    requires lo <= c.prevScrollPosition.ValueOr(0.0) <= lo + cfg.positionThreshold
    requires c.directionTimer.Some? ==>
      lo <= c.newScrollPosition <= lo + cfg.positionThreshold && lo <= c.placeholderTop <= lo + cfg.positionThreshold
    requires forall i :: 0 <= i < |events| && events[i].Tick? ==> lo <= events[i].top <= lo + cfg.positionThreshold
    ensures Replay(cfg, c, events).classes == c.classes
    ensures Replay(cfg, c, events).prevScrollDirection == c.prevScrollDirection
    decreases |events|
  {
    if |events| > 0 {
      var next := Step(cfg, c, events[0]);
      match events[0] {
        case Tick(top) =>
          assert lo <= top <= lo + cfg.positionThreshold;
          assert Abs(top - c.prevScrollPosition.ValueOr(0.0)) <= cfg.positionThreshold;
          assert next.classes == c.classes && next.prevScrollDirection == c.prevScrollDirection;
          assert next.prevScrollPosition == c.prevScrollPosition;
          assert next.newScrollPosition == top && next.placeholderTop == top;
        case TimerFires =>
          if c.directionTimer.Some? {
            assert DistanceFromLastCommit(c) <= cfg.positionThreshold;
            assert next.prevScrollPosition == Some(c.placeholderTop);
          }
      }
      assert forall i :: 0 <= i < |events[1..]| && events[1..][i].Tick? ==>
        lo <= events[1..][i].top <= lo + cfg.positionThreshold by {
        forall i | 0 <= i < |events[1..]| && events[1..][i].Tick?
          ensures lo <= events[1..][i].top <= lo + cfg.positionThreshold
        {
          assert events[1..][i] == events[i + 1];
        }
      }
      JitterNeverToggles(cfg, next, events[1..], lo);
    }
  }

  /** Ticks that do not bring the counter to the throttle never commit: the counter
      just grows by one per tick. */
  lemma {:induction false} BelowThrottleNoCommit(cfg: Config, c: Controller, events: seq<DirectionEvent>)
    requires forall i :: 0 <= i < |events| ==> events[i].Tick?
    requires c.callCount + |events| < cfg.directionThrottle
    ensures Replay(cfg, c, events).classes == c.classes
    ensures Replay(cfg, c, events).prevScrollDirection == c.prevScrollDirection
    ensures Replay(cfg, c, events).prevScrollPosition == c.prevScrollPosition
    ensures Replay(cfg, c, events).callCount == c.callCount + |events|
    ensures |events| > 0 ==> Replay(cfg, c, events).scrollPosition == events[|events| - 1].top
    decreases |events|
  {
    if |events| > 0 {
      var next := Step(cfg, c, events[0]);
      assert events[0].Tick?;
      assert next.callCount == c.callCount + 1;
      assert forall i :: 0 <= i < |events[1..]| ==> events[1..][i].Tick? by {
        forall i | 0 <= i < |events[1..]| ensures events[1..][i].Tick? {
          assert events[1..][i] == events[i + 1];
        }
      }
      BelowThrottleNoCommit(cfg, next, events[1..]);
    }
  }

  /** Throttle 20 and threshold 75: 25 rapid ticks moving 5px down each commit "down"
      exactly once, on the 20th tick (at -100px), and the last five ticks change nothing. */
  lemma RapidScrollCommitsOnceAtThrottle()
    ensures var cfg := Config(false, false, true, false, 75.0, 20);
      var events := seq(25, i => Tick(-5.0 * (i + 1) as real));
      var before := Replay(cfg, Initial(0.0), events[..19]);
      var at := Replay(cfg, Initial(0.0), events[..20]);
      var after := Replay(cfg, Initial(0.0), events);
      && before.classes == {} && before.prevScrollDirection == NoDirection
      && at.classes == {ScrollClass(Down)} && at.prevScrollDirection == Down
      && at.prevScrollPosition == Some(-100.0)
      && after.classes == at.classes && after.prevScrollDirection == Down
      && after.prevScrollPosition == Some(-100.0)
  {
    var cfg := Config(false, false, true, false, 75.0, 20);
    var events := seq(25, i => Tick(-5.0 * (i + 1) as real));
    var c0 := Initial(0.0);
    var first, tick20, rest := events[..19], events[19..20], events[20..];
    assert forall i :: 0 <= i < |first| ==> first[i].Tick?;
    BelowThrottleNoCommit(cfg, c0, first);
    var before := Replay(cfg, c0, first);
    assert before.scrollPosition == -95.0;
    assert tick20 == [Tick(-100.0)];
    assert Replay(cfg, before, tick20) == ScrollTick(cfg, before, -100.0);
    var at := Replay(cfg, before, tick20);
    assert at.classes == {ScrollClass(Down)};
    assert events[..20] == first + tick20;
    ReplayAppend(cfg, c0, first, tick20);
    assert forall i :: 0 <= i < |rest| ==> rest[i].Tick?;
    BelowThrottleNoCommit(cfg, at, rest);
    assert events == events[..20] + rest;
    ReplayAppend(cfg, c0, events[..20], rest);
  }
}
