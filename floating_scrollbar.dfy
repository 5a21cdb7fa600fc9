/**
 * The floating scrollbar: a small bar that shows while the page scrolls, sits at a
 * height proportional to the scroll offset, and fades out after the scrolling stops.
 */
module FloatingScrollbar {
  import opened Common

  const Margin: real := 20.0
  const BarHeight: real := 60.0
  const ShownOpacity: real := 0.8
  const IdleOpacity: real := 0.0
  /** Milliseconds of quiet after which the bar fades. */
  const IdleDelay: int := 600

  /** Pixels the bar can travel in a window of the given height. */
  function Available(windowHeight: real): real
  {
    windowHeight - Margin * 2.0 - BarHeight
  }

  /** The bar's vertical offset for a scroll offset, given a positive scroll range. */
  function TranslateY(scrollTop: real, maxScroll: real, windowHeight: real): real
    requires maxScroll > 0.0
  {
    Margin + (scrollTop / maxScroll) * Available(windowHeight)
  }

  /** At the top the bar sits at the margin, at the bottom one margin and one bar
      above the window's lower edge. */
  lemma TranslateEnds(maxScroll: real, windowHeight: real)
    requires maxScroll > 0.0
    ensures TranslateY(0.0, maxScroll, windowHeight) == 20.0
    ensures TranslateY(maxScroll, maxScroll, windowHeight) == windowHeight - 80.0
  {
    assert maxScroll / maxScroll == 1.0;
  }

  /** Dividing by a positive number keeps the order. */
  lemma DivideMonotone(a: real, b: real, m: real)
    requires m > 0.0 && a <= b
    ensures a / m <= b / m
  {
    var qa, qb := a / m, b / m;
    assert qa * m == a && qb * m == b;
  }

  /** Scaling by a non-negative number keeps the order. */
  lemma ScaleMonotone(f: real, g: real, a: real)
    requires a >= 0.0 && f <= g
    ensures f * a <= g * a
  {
    assert (g - f) * a >= 0.0;
  }

  /** A fraction of the room left for the bar lies between 0 and that room, in the
      fractions' order when the room is positive and in the opposite order when it is
      negative. */
  lemma ScaleRange(f: real, f': real, a: real)
    requires 0.0 <= f <= f' <= 1.0
    ensures a >= 0.0 ==> 0.0 <= f * a <= f' * a <= a
    ensures a < 0.0 ==> a <= f' * a <= f * a <= 0.0
  {
    if a >= 0.0 {
      ScaleMonotone(0.0, f, a);
      ScaleMonotone(f, f', a);
      ScaleMonotone(f', 1.0, a);
    } else {
      // Scaling by the opposite of the (negative) room reverses the order.
      ScaleMonotone(0.0, f, -a);
      ScaleMonotone(f, f', -a);
      ScaleMonotone(f', 1.0, -a);
      assert f * (-a) == -(f * a) && f' * (-a) == -(f' * a);
    }
  }

  /** Within the scroll range the bar stays between its two end positions. In a
      window at least 100 px tall it never moves up as the page scrolls down; in a
      shorter one the room left for the bar is negative, and the bar climbs from the
      top margin as the page scrolls down. */
  lemma TranslateBounds(scrollTop: real, scrollTop': real, maxScroll: real, windowHeight: real)
    requires maxScroll > 0.0
    requires 0.0 <= scrollTop <= scrollTop' <= maxScroll
    ensures windowHeight >= 100.0 ==>
              20.0 <= TranslateY(scrollTop, maxScroll, windowHeight) <= windowHeight - 80.0
              && TranslateY(scrollTop, maxScroll, windowHeight) <= TranslateY(scrollTop', maxScroll, windowHeight)
    ensures windowHeight < 100.0 ==>
              windowHeight - 80.0 <= TranslateY(scrollTop, maxScroll, windowHeight) <= 20.0
              && TranslateY(scrollTop', maxScroll, windowHeight) <= TranslateY(scrollTop, maxScroll, windowHeight)
  {
    var a := Available(windowHeight);
    assert a == windowHeight - 100.0;
    DivideMonotone(0.0, scrollTop, maxScroll);
    DivideMonotone(scrollTop, scrollTop', maxScroll);
    DivideMonotone(scrollTop', maxScroll, maxScroll);
    assert maxScroll / maxScroll == 1.0;
    var f, f' := scrollTop / maxScroll, scrollTop' / maxScroll;
    ScaleRange(f, f', a);
    assert TranslateY(scrollTop, maxScroll, windowHeight) == 20.0 + f * a;
    assert TranslateY(scrollTop', maxScroll, windowHeight) == 20.0 + f' * a;
  }

  /** The bar: its opacity, the transform last written to it, the idle timer ref,
      and the idle timers armed and not yet fired or cancelled (by timer id). */
  class Scrollbar {
    var opacity: real
    var translateY: Option<real>
    var idleTimer: Option<nat>
    var pending: set<nat>
    var nextTimerId: nat

    /** At most the timer the ref holds is pending. */
    ghost predicate Valid()
      reads this
    {
      pending <= (if idleTimer.Some? then {idleTimer.value} else {})
      && (idleTimer.Some? ==> 0 < idleTimer.value < nextTimerId)
      && nextTimerId > 0
    }

    constructor ()
      ensures Valid()
      ensures opacity == 0.0 && translateY == None && idleTimer == None && pending == {}
    {
      opacity := 0.0;
      translateY := None;
      idleTimer := None;
      pending := {};
      nextTimerId := 1;
    }

    /** `handleScroll` (also run once on mount and on resize). Without the bar element
        nothing happens; otherwise the bar shows, and when the page can scroll its
        position is written and the idle timer is replaced by a fresh one. */
    method HandleScroll(barPresent: bool, windowHeight: real, docHeight: real, scrollTop: real)
      requires Valid()
      modifies this
      ensures Valid()
      ensures !barPresent ==> opacity == old(opacity) && translateY == old(translateY)
                              && idleTimer == old(idleTimer) && pending == old(pending)
                              && nextTimerId == old(nextTimerId)
      ensures barPresent ==> opacity == ShownOpacity
      ensures barPresent && docHeight - windowHeight <= 0.0 ==>
                translateY == old(translateY) && idleTimer == old(idleTimer) && pending == old(pending)
                && nextTimerId == old(nextTimerId)
      ensures barPresent && docHeight - windowHeight > 0.0 ==>
                translateY == Some(TranslateY(scrollTop, docHeight - windowHeight, windowHeight))
                && idleTimer == Some(old(nextTimerId)) && pending == {old(nextTimerId)}
                && nextTimerId == old(nextTimerId) + 1
    {
      if !barPresent {
        return;
      }
      opacity := ShownOpacity;
      var maxScroll := docHeight - windowHeight;
      if maxScroll <= 0.0 {
        return;
      }
      var scrollFraction := scrollTop / maxScroll;
      var availableHeight := windowHeight - (Margin * 2.0) - BarHeight;
      translateY := Some(Margin + (scrollFraction * availableHeight));
      assert translateY.value == Margin + (scrollTop / maxScroll) * Available(windowHeight);
      assert TranslateY(scrollTop, maxScroll, windowHeight) == Margin + (scrollTop / maxScroll) * Available(windowHeight);
      if idleTimer.Some? {
        pending := pending - {idleTimer.value};
      }
      idleTimer := Some(nextTimerId);
      pending := pending + {nextTimerId};
      nextTimerId := nextTimerId + 1;
    }

    /** An armed idle timer fires `IdleDelay` ms later and hides the bar. */
    method IdleTimeout(id: nat)
      requires Valid() && id in pending
      modifies this
      ensures Valid()
      ensures opacity == IdleOpacity && pending == old(pending) - {id}
      ensures translateY == old(translateY) && idleTimer == old(idleTimer)
      ensures nextTimerId == old(nextTimerId)
    {
      opacity := IdleOpacity;
      pending := pending - {id};
    }

    /** Unmounting clears the pending timer. */
    method Unmount()
      requires Valid()
      modifies this
      ensures Valid() && pending == {}
      ensures opacity == old(opacity) && translateY == old(translateY) && idleTimer == old(idleTimer)
      ensures nextTimerId == old(nextTimerId)
    {
      if idleTimer.Some? {
        pending := pending - {idleTimer.value};
      }
    }
  }

  /** A valid bar never has more than one idle timer pending. */
  lemma AtMostOneTimer(pending: set<nat>, idleTimer: Option<nat>)
    requires pending <= (if idleTimer.Some? then {idleTimer.value} else {})
    ensures |pending| <= 1
  {
    if idleTimer.Some? {
      var t := idleTimer.value;
      if pending != {} {
        assert pending == {t};
      }
    }
  }
}
