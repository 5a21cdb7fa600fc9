/**
 * The living ink cursor: an arrow that turns to face the direction the pointer
 * moves, snaps to an upright multiple of a full turn and is pulled halfway towards
 * the centre of an interactive element it hovers, shows a text bubble, spins three
 * turns on a double click, and shrinks while the button is held.
 */
module LivingCursor {
  import opened Common
  import opened Dom

  /** `a, button, [role='button'], [data-magnetic]` */
  const InteractiveSelectors: seq<Selector> :=
    [Tag("a"), Tag("button"), AttrIs("role", "button"), HasAttr("data-magnetic")]
  /** `[data-cursor='certificate'], .certificate-card, [data-certificate]` */
  const CertificateSelectors: seq<Selector> :=
    [AttrIs("data-cursor", "certificate"), HasClass("certificate-card"), HasAttr("data-certificate")]
  /** `img, [data-cursor='image']` */
  const ImageSelectors: seq<Selector> := [Tag("img"), AttrIs("data-cursor", "image")]

  /** A text of this many characters or more is replaced by "Click". */
  const TextLimit: nat := 20
  /** Degrees added by a double click: three full turns. */
  const Spin: real := 1080.0
  const PullFactor: real := 0.5

  /** What the pointer is over, as `handleMouseOver` records it: the element the
      cursor is pulled towards, the bubble's text and the scale target. */
  datatype HoverInfo = HoverInfo(magnetic: Option<Element>, text: Option<string>, scale: real)

  /** The interactive element: the nearest link, button or magnetic element, or else
      the target itself when its computed cursor is a pointer. */
  function InteractiveElement(path: seq<Element>): (r: Option<Element>)
    requires path != []
    ensures r.Some? <==> Closest(path, InteractiveSelectors).Some? || path[0].pointer
    ensures Closest(path, InteractiveSelectors).Some? ==> r == Closest(path, InteractiveSelectors)
  {
    var closest := Closest(path, InteractiveSelectors);
    if closest.Some? then closest else if path[0].pointer then Some(path[0]) else None
  }

  /** The bubble text over an interactive element: `data-cursor-text` when it is set
      and non-empty, else the trimmed text when it is non-empty and shorter than 20
      characters, else "Click". */
  function HoverText(e: Element): (t: string)
    ensures t != []
    ensures "data-cursor-text" in e.attrs && e.attrs["data-cursor-text"] != [] ==> t == e.attrs["data-cursor-text"]
    ensures !("data-cursor-text" in e.attrs && e.attrs["data-cursor-text"] != []) ==>
              |t| < TextLimit
              && (t == Trim(e.textContent) <==> Trim(e.textContent) != [] && |Trim(e.textContent)| < TextLimit)
              && (t != Trim(e.textContent) ==> t == "Click")
  {
    var custom := GetAttribute(e, "data-cursor-text");
    if custom.Some? && custom.value != [] then custom.value
    else
      var text := Trim(e.textContent);
      if text != [] && |text| < TextLimit then text else "Click"
  }

  /** `handleMouseOver`: an interactive element wins and makes the cursor magnetic;
      otherwise a certificate, then an image; otherwise nothing. */
  function Classify(path: seq<Element>): (h: HoverInfo)
    requires path != []
    ensures h.magnetic == InteractiveElement(path)
    ensures h.magnetic.Some? ==> h.text == Some(HoverText(h.magnetic.value)) && h.scale == 1.2
    ensures h.magnetic.None? && Closest(path, CertificateSelectors).Some? ==>
              h.text == Some("Certificate") && h.scale == 1.3
    ensures h.magnetic.None? && Closest(path, CertificateSelectors).None? && Closest(path, ImageSelectors).Some? ==>
              h.text == Some("View") && h.scale == 1.5
    ensures h.magnetic.None? && Closest(path, CertificateSelectors).None? && Closest(path, ImageSelectors).None? ==>
              h.text == None && h.scale == 1.0
  {
    var interactive := InteractiveElement(path);
    if interactive.Some? then HoverInfo(interactive, Some(HoverText(interactive.value)), 1.2)
    else if Closest(path, CertificateSelectors).Some? then HoverInfo(None, Some("Certificate"), 1.3)
    else if Closest(path, ImageSelectors).Some? then HoverInfo(None, Some("View"), 1.5)
    else HoverInfo(None, None, 1.0)
  }

  /** The cursor enlarges over everything it recognises, most over images. */
  lemma ClassifyScale(path: seq<Element>)
    requires path != []
    ensures Classify(path).text.Some? <==> Classify(path).scale > 1.0
    ensures 1.0 <= Classify(path).scale <= 1.5
  {
  }

  /** The scale restored on mouse up: enlarged only while magnetic. */
  function ReleaseScale(isMagnetic: bool): (s: real)
    ensures s >= 1.0
    ensures s > 1.0 <==> isMagnetic
  {
    if isMagnetic then 1.2 else 1.0
  }

  /** Releasing the button over an interactive element restores its hover scale, but
      over a certificate or an image it restores the plain scale 1, not their larger
      hover scale. */
  lemma ReleaseAfterHover(path: seq<Element>)
    requires path != []
    ensures Classify(path).magnetic.Some? ==> ReleaseScale(true) == Classify(path).scale
    ensures Classify(path).magnetic.None? && Classify(path).text.Some? ==>
              ReleaseScale(false) < Classify(path).scale
  {
  }

  /** Where the cursor is drawn while magnetic: pulled half way from the pointer to
      the element's centre, i.e. the midpoint of the two. */
  function MagneticTarget(mouse: Point, centre: Point): (t: Point)
    ensures t.x - mouse.x == centre.x - t.x && t.y - mouse.y == centre.y - t.y
    ensures t == Point((mouse.x + centre.x) / 2.0, (mouse.y + centre.y) / 2.0)
  {
    Point(mouse.x + (centre.x - mouse.x) * PullFactor, mouse.y + (centre.y - mouse.y) * PullFactor)
  }

  /** `updateVelocity`'s new velocity: displacement over elapsed milliseconds when
      time has passed, the old velocity otherwise. */
  function VelocityAfter(velocity: Point, lastPos: Point, lastTime: int, pos: Point, now: int): (v: Point)
    ensures now > lastTime ==> (v.x * (now - lastTime) as real == pos.x - lastPos.x
                                && v.y * (now - lastTime) as real == pos.y - lastPos.y)
    ensures now <= lastTime ==> v == velocity
  {
    var deltaTime := now - lastTime;
    if deltaTime > 0 then
      Point((pos.x - lastPos.x) / deltaTime as real, (pos.y - lastPos.y) / deltaTime as real)
    else velocity
  }

  /** The angle difference brought back by one turn when it exceeds half a turn either
      way. For headings in [-90, 270] the difference is within a turn either way, and
      then the result is the equivalent turn of at most half a turn. */
  function WrapDiff(d: real): (w: real)
    ensures w == d || w == d - 360.0 || w == d + 360.0
    ensures -360.0 <= d <= 360.0 ==> -180.0 <= w <= 180.0
  {
    var e := if d > 180.0 then d - 360.0 else d;
    if e < -180.0 then e + 360.0 else e
  }

  /** `Math.round`: the nearest integer, halves rounded up. */
  function Round(x: real): (n: int)
    ensures x - 0.5 < n as real <= x + 0.5
  {
    (x + 0.5).Floor
  }

  /** `Math.round(rotation / 360) * 360`: the number of whole turns the snap lands on. */
  function NearestTurns(rotation: real): (k: int)
    ensures rotation - 180.0 < 360.0 * k as real <= rotation + 180.0
  {
    var n := Round(rotation / 360.0);
    assert (rotation / 360.0) * 360.0 == rotation;
    assert rotation / 360.0 - 0.5 < n as real <= rotation / 360.0 + 0.5;
    ScaleBounds(rotation / 360.0 - 0.5, n as real, rotation / 360.0 + 0.5);
    n
  }

  lemma ScaleBounds(lo: real, x: real, hi: real)
    requires lo < x <= hi
    ensures 360.0 * lo < 360.0 * x <= 360.0 * hi
  {
  }

  /** The snap target is the closest whole number of turns to the rotation. */
  lemma NearestTurnsIsNearest(rotation: real, k: int)
    ensures Abs(rotation - 360.0 * NearestTurns(rotation) as real) <= Abs(rotation - 360.0 * k as real)
  {
    var n := NearestTurns(rotation);
    if k < n {
      assert 360.0 * k as real <= 360.0 * n as real - 360.0;
    } else if k > n {
      assert 360.0 * k as real >= 360.0 * n as real + 360.0;
    }
  }

  /** `Math.max(0.9, 1 - speed * 0.05)`. */
  function Squash(speed: real): (s: real)
    requires speed >= 0.0
    ensures 0.9 <= s <= 1.0
    ensures speed <= 2.0 ==> s == 1.0 - speed * 0.05
  {
    if 1.0 - speed * 0.05 > 0.9 then 1.0 - speed * 0.05 else 0.9
  }

  /** The cursor's refs, state and the targets last handed to its springs. */
  class Cursor {
    var hoveredText: Option<string>
    var isMagnetic: bool
    var isClicking: bool
    var magneticElement: Option<Element>
    var lastMousePos: Point
    var velocity: Point
    var lastUpdateTime: int
    var previousAngle: real
    var accumulatedRotation: real
    /** Targets of the position, bubble, rotation and scale springs. */
    var cursorTarget: Point
    var bubbleTarget: Point
    var rotationTarget: real
    var scaleTarget: real
    /** Whole turns between the accumulated rotation and the last heading. */
    ghost var turns: int

    /** The arrow always points along the last heading it turned to, plus whole
        turns; the heading is an `atan2` angle shifted by 90 degrees; the cursor is
        magnetic exactly while it holds an element. */
    ghost predicate Valid()
      reads this
    {
      -90.0 <= previousAngle <= 270.0
      && accumulatedRotation == previousAngle + 360.0 * turns as real
      && (isMagnetic <==> magneticElement.Some?)
    }

    constructor (now: int)
      ensures Valid()
      ensures hoveredText == None && !isMagnetic && !isClicking && magneticElement == None
      ensures lastMousePos == Point(0.0, 0.0) && velocity == Point(0.0, 0.0) && lastUpdateTime == now
      ensures previousAngle == 0.0 && accumulatedRotation == 0.0
      ensures cursorTarget == Point(0.0, 0.0) && bubbleTarget == Point(0.0, 0.0)
      ensures rotationTarget == 0.0 && scaleTarget == 1.0
    {
      hoveredText, isMagnetic, isClicking, magneticElement := None, false, false, None;
      lastMousePos, velocity, lastUpdateTime := Point(0.0, 0.0), Point(0.0, 0.0), now;
      previousAngle, accumulatedRotation := 0.0, 0.0;
      cursorTarget, bubbleTarget := Point(0.0, 0.0), Point(0.0, 0.0);
      rotationTarget, scaleTarget := 0.0, 1.0;
      turns := 0;
    }

    /** `handleDoubleClick`: three more turns and a hop (its 200 ms settle is
        `ScaleTimeout`). */
    method DoubleClick()
      requires Valid()
      modifies this
      ensures Valid()
      ensures accumulatedRotation == old(accumulatedRotation) + Spin
      ensures rotationTarget == accumulatedRotation && scaleTarget == 1.2
      ensures previousAngle == old(previousAngle) && isMagnetic == old(isMagnetic)
      ensures magneticElement == old(magneticElement) && hoveredText == old(hoveredText)
      ensures isClicking == old(isClicking) && lastMousePos == old(lastMousePos)
      ensures velocity == old(velocity) && lastUpdateTime == old(lastUpdateTime)
      ensures cursorTarget == old(cursorTarget) && bubbleTarget == old(bubbleTarget)
      ensures turns == old(turns) + 3
    {
      accumulatedRotation := accumulatedRotation + Spin;
      turns := turns + 3;
      rotationTarget := accumulatedRotation;
      scaleTarget := 1.2;
    }

    /** A pending `scale.set(1)` timer fires. */
    method ScaleTimeout()
      requires Valid()
      modifies this
      ensures Valid() && scaleTarget == 1.0
      ensures accumulatedRotation == old(accumulatedRotation) && isMagnetic == old(isMagnetic)
      ensures hoveredText == old(hoveredText) && isClicking == old(isClicking)
      ensures magneticElement == old(magneticElement) && previousAngle == old(previousAngle)
      ensures rotationTarget == old(rotationTarget) && turns == old(turns)
      ensures lastMousePos == old(lastMousePos) && velocity == old(velocity)
      ensures lastUpdateTime == old(lastUpdateTime)
      ensures cursorTarget == old(cursorTarget) && bubbleTarget == old(bubbleTarget)
    {
      scaleTarget := 1.0;
    }

    /** `handleMouseOver` for a target whose path up the tree is `path`. */
    method MouseOver(path: seq<Element>)
      requires Valid() && path != []
      modifies this
      ensures Valid()
      ensures magneticElement == Classify(path).magnetic && isMagnetic == magneticElement.Some?
      ensures hoveredText == Classify(path).text && scaleTarget == Classify(path).scale
      ensures accumulatedRotation == old(accumulatedRotation) && rotationTarget == old(rotationTarget)
      ensures previousAngle == old(previousAngle) && turns == old(turns)
      ensures isClicking == old(isClicking) && lastMousePos == old(lastMousePos)
      ensures velocity == old(velocity) && lastUpdateTime == old(lastUpdateTime)
      ensures cursorTarget == old(cursorTarget) && bubbleTarget == old(bubbleTarget)
    {
      var interactive := InteractiveElement(path);
      if interactive.Some? {
        magneticElement := interactive;
        isMagnetic := true;
        hoveredText := Some(HoverText(interactive.value));
        scaleTarget := 1.2;
        return;
      }
      if Closest(path, CertificateSelectors).Some? {
        magneticElement, isMagnetic := None, false;
        hoveredText := Some("Certificate");
        scaleTarget := 1.3;
        return;
      }
      if Closest(path, ImageSelectors).Some? {
        magneticElement, isMagnetic := None, false;
        hoveredText := Some("View");
        scaleTarget := 1.5;
        return;
      }
      magneticElement, isMagnetic := None, false;
      hoveredText := None;
      scaleTarget := 1.0;
    }

    method MouseDown()
      requires Valid()
      modifies this
      ensures Valid() && isClicking && scaleTarget == 0.6
      ensures isMagnetic == old(isMagnetic) && hoveredText == old(hoveredText)
      ensures magneticElement == old(magneticElement) && previousAngle == old(previousAngle)
      ensures accumulatedRotation == old(accumulatedRotation) && rotationTarget == old(rotationTarget)
      ensures turns == old(turns)
      ensures lastMousePos == old(lastMousePos) && velocity == old(velocity)
      ensures lastUpdateTime == old(lastUpdateTime)
      ensures cursorTarget == old(cursorTarget) && bubbleTarget == old(bubbleTarget)
    {
      isClicking := true;
      scaleTarget := 0.6;
    }

    method MouseUp()
      requires Valid()
      modifies this
      ensures Valid() && !isClicking && scaleTarget == ReleaseScale(isMagnetic)
      ensures isMagnetic == old(isMagnetic) && hoveredText == old(hoveredText)
      ensures magneticElement == old(magneticElement) && previousAngle == old(previousAngle)
      ensures accumulatedRotation == old(accumulatedRotation) && rotationTarget == old(rotationTarget)
      ensures turns == old(turns)
      ensures lastMousePos == old(lastMousePos) && velocity == old(velocity)
      ensures lastUpdateTime == old(lastUpdateTime)
      ensures cursorTarget == old(cursorTarget) && bubbleTarget == old(bubbleTarget)
    {
      isClicking := false;
      if isMagnetic {
        scaleTarget := 1.2;
      } else {
        scaleTarget := 1.0;
      }
    }

    /** `updateVelocity` for the pointer at `pos` at time `now`. */
    method UpdateVelocity(pos: Point, now: int)
      requires Valid()
      modifies this
      ensures Valid()
      ensures velocity == VelocityAfter(old(velocity), old(lastMousePos), old(lastUpdateTime), pos, now)
      ensures lastMousePos == pos && lastUpdateTime == now
      ensures previousAngle == old(previousAngle) && accumulatedRotation == old(accumulatedRotation)
      ensures rotationTarget == old(rotationTarget) && scaleTarget == old(scaleTarget)
      ensures isMagnetic == old(isMagnetic) && magneticElement == old(magneticElement)
      ensures hoveredText == old(hoveredText) && isClicking == old(isClicking) && turns == old(turns)
      ensures cursorTarget == old(cursorTarget) && bubbleTarget == old(bubbleTarget)
    {
      var deltaTime := now - lastUpdateTime;
      if deltaTime > 0 {
        velocity := Point((pos.x - lastMousePos.x) / deltaTime as real,
                          (pos.y - lastMousePos.y) / deltaTime as real);
      }
      lastUpdateTime := now;
      lastMousePos := pos;
    }

    /** `smoothMouseMove` for the pointer at `pos` at time `now`. `rect` is the magnetic
        element's bounding box at that moment; `speed` is the length of the new
        velocity and `heading` is its `atan2` direction in degrees plus 90. */
    method MouseMove(pos: Point, now: int, rect: Rect, speed: real, heading: real)
      requires Valid()
      requires speed >= 0.0
      requires speed * speed == VelocityAfter(velocity, lastMousePos, lastUpdateTime, pos, now).x
                                * VelocityAfter(velocity, lastMousePos, lastUpdateTime, pos, now).x
                              + VelocityAfter(velocity, lastMousePos, lastUpdateTime, pos, now).y
                                * VelocityAfter(velocity, lastMousePos, lastUpdateTime, pos, now).y
      requires -90.0 <= heading <= 270.0
      modifies this
      ensures Valid()
      ensures velocity == VelocityAfter(old(velocity), old(lastMousePos), old(lastUpdateTime), pos, now)
      ensures lastMousePos == pos && lastUpdateTime == now && bubbleTarget == pos
      ensures cursorTarget == if magneticElement.Some? then MagneticTarget(pos, rect.Centre()) else pos
      ensures speed > 0.1 && !isMagnetic ==>
                previousAngle == heading
                && accumulatedRotation == old(accumulatedRotation) + WrapDiff(heading - old(previousAngle))
                && rotationTarget == accumulatedRotation
                && scaleTarget == Squash(speed)
      ensures isMagnetic ==>
                previousAngle == old(previousAngle) && accumulatedRotation == old(accumulatedRotation)
                && rotationTarget == 360.0 * NearestTurns(accumulatedRotation) as real
                && scaleTarget == 1.0
      ensures speed <= 0.1 && !isMagnetic ==>
                previousAngle == old(previousAngle) && accumulatedRotation == old(accumulatedRotation)
                && rotationTarget == old(rotationTarget) && scaleTarget == 1.0
      ensures isMagnetic == old(isMagnetic) && magneticElement == old(magneticElement)
      ensures hoveredText == old(hoveredText) && isClicking == old(isClicking)
    {
      UpdateVelocity(pos, now);
      var target := pos;
      if magneticElement.Some? {
        var centre := rect.Centre();
        target := Point(pos.x + (centre.x - pos.x) * PullFactor, pos.y + (centre.y - pos.y) * PullFactor);
      }
      cursorTarget := target;
      bubbleTarget := pos;

      if speed > 0.1 && !isMagnetic {
        var angleDiff := heading - previousAngle;
        if angleDiff > 180.0 {
          angleDiff := angleDiff - 360.0;
        }
        if angleDiff < -180.0 {
          angleDiff := angleDiff + 360.0;
        }
        assert angleDiff == WrapDiff(heading - previousAngle);
        ghost var extra: int := if angleDiff == heading - previousAngle then 0
                                else if angleDiff == heading - previousAngle - 360.0 then -1 else 1;
        accumulatedRotation := accumulatedRotation + angleDiff;
        turns := turns + extra;
        rotationTarget := accumulatedRotation;
        previousAngle := heading;
        scaleTarget := if 1.0 - speed * 0.05 > 0.9 then 1.0 - speed * 0.05 else 0.9;
      } else if isMagnetic {
        rotationTarget := 360.0 * Round(accumulatedRotation / 360.0) as real;
        scaleTarget := 1.0;
      } else {
        scaleTarget := 1.0;
      }
    }
  }

  /** A turn step never swings the arrow by more than half a turn. */
  lemma TurnStepBounded(previous: real, heading: real)
    requires -90.0 <= previous <= 270.0 && -90.0 <= heading <= 270.0
    ensures -180.0 <= WrapDiff(heading - previous) <= 180.0
    ensures heading - previous - WrapDiff(heading - previous) in {0.0, 360.0, -360.0}
  {
  }
}
