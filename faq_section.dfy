/**
 * The FAQ section: a single-open accordion that closes when the reader clicks
 * anywhere outside it, and the "Pickel" mascot beside it, whose mood, caption,
 * tooltip and blinking follow a fixed priority of its flags.
 */
module FAQSection {
  import opened Common
  import opened Dom

  /** Entries of the accordion (`FAQ_DATA`), indexed from 0. */
  const EntryCount: nat := 4

  /** `#faq-container`. */
  const ContainerSelector: seq<Selector> := [AttrIs("id", "faq-container")]

  /** The entry button's `setActiveIndex(isActive ? null : idx)`: the open entry closes,
      any other entry opens in place of whatever was open. */
  function Toggled(active: Option<nat>, idx: nat): (r: Option<nat>)
    ensures r == Some(idx) <==> active != Some(idx)
    ensures r == None <==> active == Some(idx)
  {
    if active == Some(idx) then None else Some(idx)
  }

  /** Clicking the same entry twice leaves it closed, unless it was the one open. */
  lemma ToggleTwice(active: Option<nat>, idx: nat)
    ensures Toggled(Toggled(active, idx), idx) == (if active == Some(idx) then active else None)
  {
  }

  /** The entries rendered open for a given `activeIndex`. */
  function OpenEntries(active: Option<nat>): (r: set<nat>)
    ensures |r| <= 1
    ensures forall i :: i in r <==> i < EntryCount && active == Some(i)
  {
    if active.Some? && active.value < EntryCount then {active.value} else {}
  }

  /** A target path lies inside the accordion's container. */
  predicate InsideContainer(path: seq<Element>)
  {
    Closest(path, ContainerSelector).Some?
  }

  /** The document click listener. `target` is the path from the click target up
      through its ancestors, or nothing when the target is not an Element. A click on
      an element outside the container closes the open entry; anything else leaves
      `activeIndex` alone. */
  function AfterDocumentClick(active: Option<nat>, target: Option<seq<Element>>): (r: Option<nat>)
    ensures r == None || r == active
    ensures target.Some? && !InsideContainer(target.value) ==> r == None
    ensures target.None? || InsideContainer(target.value) ==> r == active
  {
    if target.Some? && Closest(target.value, ContainerSelector).None? then None else active
  }

  /** A click on an entry's button reaches the document listener too, but from inside
      the container, so the toggle's result stands. */
  lemma EntryClickSurvivesListener(active: Option<nat>, idx: nat, path: seq<Element>, j: nat)
    requires j < |path| && "id" in path[j].attrs && path[j].attrs["id"] == "faq-container"
    ensures AfterDocumentClick(Toggled(active, idx), Some(path)) == Toggled(active, idx)
  {
    assert Matches(path[j], ContainerSelector[0]);
    ClosestNoFurther(path, ContainerSelector, j);
  }

  /** The accordion's state. */
  class Accordion {
    var activeIndex: Option<nat>

    ghost predicate Valid()
      reads this
    {
      activeIndex.Some? ==> activeIndex.value < EntryCount
    }

    constructor ()
      ensures Valid() && activeIndex == None
    {
      activeIndex := None;
    }

    /** The `isActive` prop handed to the mascot: `activeIndex !== null`. */
    function MascotActive(): (b: bool)
      reads this
      requires Valid()
      ensures b <==> |OpenEntries(activeIndex)| == 1
    {
      activeIndex.Some?
    }

    /** The button of entry `idx` is clicked. */
    method ClickEntry(idx: nat)
      requires Valid() && idx < EntryCount
      modifies this
      ensures Valid()
      ensures activeIndex == Toggled(old(activeIndex), idx)
    {
      var isActive := activeIndex == Some(idx);
      activeIndex := if isActive then None else Some(idx);
    }

    /** The document click listener runs. */
    method DocumentClick(target: Option<seq<Element>>)
      requires Valid()
      modifies this
      ensures Valid()
      ensures activeIndex == AfterDocumentClick(old(activeIndex), target)
    {
      if target.Some? && Closest(target.value, ContainerSelector).None? {
        activeIndex := None;
      }
    }
  }

  /** The mascot's mood (`currentState`). */
  datatype Mood = Annoyed | Active | Hover | Idle

  /** Rank of a mood in the priority order, highest first. */
  function Priority(m: Mood): nat
  {
    match m
    case Annoyed => 0
    case Active => 1
    case Hover => 2
    case Idle => 3
  }

  /** Whether the flag behind a mood is raised (`Idle` has none and always is). */
  predicate Raised(m: Mood, isAnnoyed: bool, isActive: bool, isHovered: bool)
  {
    match m
    case Annoyed => isAnnoyed
    case Active => isActive
    case Hover => isHovered
    case Idle => true
  }

  /** `isAnnoyed ? 'annoyed' : isActive ? 'active' : isHovered ? 'hover' : 'idle'`. */
  function CurrentMood(isAnnoyed: bool, isActive: bool, isHovered: bool): (m: Mood)
    ensures Raised(m, isAnnoyed, isActive, isHovered)
    ensures forall n: Mood :: Priority(n) < Priority(m) ==> !Raised(n, isAnnoyed, isActive, isHovered)
  {
    if isAnnoyed then Annoyed else if isActive then Active else if isHovered then Hover else Idle
  }

  /** The caption each mood shows under the mascot. */
  function MoodCaption(m: Mood): string
  {
    match m
    case Annoyed => "HEY! CUT IT OUT!"
    case Active => "Ooh! A classic!"
    case Hover => "At your service"
    case Idle => "Pickel"
  }

  /** The caption expression under the mascot, written on the flags. */
  function Caption(isAnnoyed: bool, isActive: bool, isHovered: bool): string
  {
    if isAnnoyed then "HEY! CUT IT OUT!"
    else if isActive then "Ooh! A classic!"
    else if isHovered then "At your service"
    else "Pickel"
  }

  /** The caption follows the same priority as the mood, and tells the moods apart. */
  lemma CaptionFollowsMood(isAnnoyed: bool, isActive: bool, isHovered: bool)
    ensures Caption(isAnnoyed, isActive, isHovered) == MoodCaption(CurrentMood(isAnnoyed, isActive, isHovered))
    ensures forall m: Mood, n: Mood :: MoodCaption(m) == MoodCaption(n) ==> m == n
  {
    forall m: Mood, n: Mood | MoodCaption(m) == MoodCaption(n) ensures m == n {
      assert MoodCaption(m)[0] == MoodCaption(n)[0];
      assert |MoodCaption(m)| == |MoodCaption(n)|;
    }
  }

  /** The caption's opacity: full when any flag is raised, half otherwise. */
  function CaptionOpacity(isAnnoyed: bool, isActive: bool, isHovered: bool): (o: real)
    ensures o == 1.0 <==> CurrentMood(isAnnoyed, isActive, isHovered) != Idle
    ensures o == 0.5 <==> CurrentMood(isAnnoyed, isActive, isHovered) == Idle
  {
    if isHovered || isActive || isAnnoyed then 1.0 else 0.5
  }

  /** Whether the tooltip is shown: while hovered, whatever the accordion does,
      except when the mood is annoyed. */
  function TooltipShown(isHovered: bool, isAnnoyed: bool): (b: bool)
    ensures b ==> isHovered
    ensures forall isActive: bool :: b <==> isHovered && CurrentMood(isAnnoyed, isActive, isHovered) != Annoyed
  {
    isHovered && !isAnnoyed
  }

  /** The mascot's own flags; `isActive` is its prop and comes from the accordion. */
  class PickelMascot {
    var isHovered: bool
    var isAnnoyed: bool
    var isBlinking: bool

    constructor ()
      ensures !isHovered && !isAnnoyed && !isBlinking
    {
      isHovered, isAnnoyed, isBlinking := false, false, false;
    }

    method MouseEnter()
      modifies this
      ensures isHovered && isAnnoyed == old(isAnnoyed) && isBlinking == old(isBlinking)
    {
      isHovered := true;
    }

    method MouseLeave()
      modifies this
      ensures !isHovered && isAnnoyed == old(isAnnoyed) && isBlinking == old(isBlinking)
    {
      isHovered := false;
    }

    /** A double click annoys the mascot (its 2000 ms reset is `AnnoyTimeout`). */
    method DoubleClick()
      modifies this
      ensures isAnnoyed && isHovered == old(isHovered) && isBlinking == old(isBlinking)
    {
      isAnnoyed := true;
    }

    method AnnoyTimeout()
      modifies this
      ensures !isAnnoyed && isHovered == old(isHovered) && isBlinking == old(isBlinking)
    {
      isAnnoyed := false;
    }

    /** The 4000 ms blink interval fires: the eyes close only when the mascot is
        neither annoyed nor active (they reopen at `BlinkTimeout`). */
    method BlinkTick(isActive: bool)
      modifies this
      ensures isBlinking == (old(isBlinking) || (!isAnnoyed && !isActive))
      ensures isHovered == old(isHovered) && isAnnoyed == old(isAnnoyed)
    {
      if !isAnnoyed && !isActive {
        isBlinking := true;
      }
    }

    method BlinkTimeout()
      modifies this
      ensures !isBlinking && isHovered == old(isHovered) && isAnnoyed == old(isAnnoyed)
    {
      isBlinking := false;
    }
  }

  /** Height of each open eye, closed while blinking. */
  function EyeHeight(isBlinking: bool): (ry: real)
    ensures ry > 0.0
    ensures isBlinking <==> ry < 4.0
  {
    if isBlinking then 0.5 else 4.0
  }
}
